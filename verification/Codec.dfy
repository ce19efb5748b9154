/**
  The wire format: the 21-byte header plus payload that both programs write byte by
  byte, and the decoder both use. Header fields are 32-bit two's complement numbers
  and 8-bit `char` flags.
 */
module Codec {
  import opened Segments

  predicate Is32(n: int) { -0x8000_0000 <= n < 0x8000_0000 }
  predicate Is8(n: int) { -0x80 <= n < 0x80 }

  /** A segment value that the C struct can hold. */
  predicate Representable(s: Segment) {
    && Is32(s.seqNum) && Is32(s.ackNum) && Is32(s.rwnd) && Is32(s.timestamp)
    && Is8(s.isEof) && Is8(s.isProbe) && Is8(s.isComplete) && Is8(s.isResent) && Is8(s.isLastInIter)
    && |s.payload| == UDP_PAYLOAD_SIZE
  }

  /** Byte `n >> (8 * (3 - i)) & 0xFF` of a big-endian field. */
  function IntByte(n: int, i: nat): byte
    requires i < 4
  {
    if i == 0 then (n / 0x100_0000) % 0x100
    else if i == 1 then (n / 0x1_0000) % 0x100
    else if i == 2 then (n / 0x100) % 0x100
    else n % 0x100
  }

  function IntBytes(n: int): (b: seq<byte>)
    ensures |b| == 4
  {
    [IntByte(n, 0), IntByte(n, 1), IntByte(n, 2), IntByte(n, 3)]
  }

  /** `c[0] << 24 | c[1] << 16 | c[2] << 8 | c[3]` read as a signed int. */
  function IntOf(b: seq<byte>): (n: int)
    requires |b| == 4
    ensures Is32(n)
  {
    var u: int := (b[0] as int) * 0x100_0000 + (b[1] as int) * 0x1_0000 + (b[2] as int) * 0x100 + b[3];
    if u < 0x8000_0000 then u else u - 0x1_0000_0000
  }

  function CharOf(b: byte): int { if b < 0x80 then b else b - 0x100 }

  function FlagBytes(s: Segment): (b: seq<byte>)
    ensures |b| == 4
  {
    [s.isEof % 0x100, s.isProbe % 0x100, s.isComplete % 0x100, s.isResent % 0x100]
  }

  /** The header up to and including the timestamp: 20 bytes. */
  function Header(s: Segment): (h: seq<byte>)
    ensures |h| == 20
  {
    IntBytes(s.seqNum) + IntBytes(s.ackNum)
    + FlagBytes(s)
    + IntBytes(s.rwnd) + IntBytes(s.timestamp)
  }

  function Encode(s: Segment): (b: seq<byte>) {
    Header(s) + [s.isLastInIter % 0x100] + s.payload
  }

  /** The TIME_WAIT encoder forgets the is_last_in_iter byte. */
  function EncodeTimeWait(s: Segment): (b: seq<byte>) {
    Header(s) + s.payload
  }

  function Decode(b: seq<byte>): (s: Segment)
    requires |b| == UDP_SEGMENT_SIZE
    ensures Representable(s)
  {
    Segment(
      IntOf(b[0..4]), IntOf(b[4..8]),
      CharOf(b[8]), CharOf(b[9]), CharOf(b[10]), CharOf(b[11]),
      IntOf(b[12..16]), IntOf(b[16..20]), CharOf(b[20]), b[21..512])
  }

  // ----- the byte-copying code

  method PutInt(buf: array<byte>, at: nat, n: int) returns (next: nat)
    requires at + 4 <= buf.Length
    modifies buf
    ensures next == at + 4
    ensures buf[..at] == old(buf[..at]) && buf[at..at + 4] == IntBytes(n) && buf[at + 4..] == old(buf[at + 4..])
  {
    var converter := new byte[4](i => 0);
    converter[0], converter[1], converter[2], converter[3] := IntByte(n, 0), IntByte(n, 1), IntByte(n, 2), IntByte(n, 3);
    next := at;
    for temp := 0 to 4
      invariant next == at + temp
      invariant converter[..] == IntBytes(n)
      invariant forall i :: 0 <= i < buf.Length ==>
        buf[i] == if at <= i < next then IntBytes(n)[i - at] else old(buf[i])
    {
      buf[next] := converter[temp];
      next := next + 1;
    }
  }

  method PutFlags(s: Segment, buf: array<byte>, at: nat) returns (next: nat)
    requires at + 4 <= buf.Length
    modifies buf
    ensures next == at + 4
    ensures buf[..at] == old(buf[..at]) && buf[at..at + 4] == FlagBytes(s) && buf[at + 4..] == old(buf[at + 4..])
  {
    buf[at] := s.isEof % 0x100;
    buf[at + 1] := s.isProbe % 0x100;
    buf[at + 2] := s.isComplete % 0x100;
    buf[at + 3] := s.isResent % 0x100;
    next := at + 4;
  }

  method PutHeader(s: Segment, buf: array<byte>) returns (next: nat)
    requires Representable(s) && buf.Length == UDP_SEGMENT_SIZE
    modifies buf
    ensures next == 20 && buf[..] == Header(s) + old(buf[20..])
  {
    ghost var rest := buf[20..];
    next := PutInt(buf, 0, s.seqNum);
    assert buf[20..] == buf[4..][16..] == rest;
    next := PutInt(buf, next, s.ackNum);
    assert buf[..8] == IntBytes(s.seqNum) + IntBytes(s.ackNum);
    assert buf[20..] == buf[8..][12..] == rest;
    next := PutFlags(s, buf, next);
    assert buf[..12] == buf[..8] + FlagBytes(s);
    assert buf[20..] == buf[12..][8..] == rest;
    next := PutInt(buf, next, s.rwnd);
    assert buf[..16] == buf[..12] + IntBytes(s.rwnd);
    assert buf[20..] == buf[16..][4..] == rest;
    next := PutInt(buf, next, s.timestamp);
    assert buf[..20] == buf[..16] + IntBytes(s.timestamp);
    assert buf[..] == buf[..20] + buf[20..];
  }

  method PutPayload(payload: seq<byte>, buf: array<byte>, at: nat) returns (next: nat)
    requires |payload| == UDP_PAYLOAD_SIZE && at + UDP_PAYLOAD_SIZE <= buf.Length
    modifies buf
    ensures next == at + UDP_PAYLOAD_SIZE
    ensures buf[..] == old(buf[..at]) + payload + old(buf[next..])
  {
    next := at;
    for j := 0 to UDP_PAYLOAD_SIZE
      invariant next == at + j
      invariant forall i :: 0 <= i < buf.Length ==>
        buf[i] == if at <= i < next then payload[i - at] else old(buf[i])
    {
      buf[next] := payload[j];
      next := next + 1;
    }
  }

  /** Encoding overwrites all 512 bytes of the datagram buffer. */
  method EncodeInto(s: Segment, buf: array<byte>)
    requires Representable(s) && buf.Length == UDP_SEGMENT_SIZE
    modifies buf
    ensures buf[..] == Encode(s)
  {
    var next := PutHeader(s, buf);
    buf[next] := s.isLastInIter % 0x100;
    next := PutPayload(s.payload, buf, next + 1);
    assert old(buf[..])[512..] == [];
  }

  /** The TIME_WAIT copy of the encoder: the last byte keeps whatever was there. */
  method EncodeTimeWaitInto(s: Segment, buf: array<byte>)
    requires Representable(s) && buf.Length == UDP_SEGMENT_SIZE
    modifies buf
    ensures buf[..] == EncodeTimeWait(s) + [old(buf[511])]
  {
    var next := PutHeader(s, buf);
    next := PutPayload(s.payload, buf, next);
    assert old(buf[..])[511..] == [old(buf[511])];
  }

  method TakeInt(buf: array<byte>, at: nat) returns (n: int, next: nat)
    requires at + 4 <= buf.Length
    ensures next == at + 4 && n == IntOf(buf[at..at + 4])
  {
    var converter := new byte[4](_ => 0);
    next := at;
    for temp := 0 to 4
      invariant next == at + temp
      invariant converter[..temp] == buf[at..next]
    {
      converter[temp] := buf[next];
      next := next + 1;
    }
    assert converter[..] == buf[at..at + 4];
    n := IntOf(converter[..]);
  }

  /** The decoder that both programs run on a received datagram. */
  method DecodeFrom(buf: array<byte>) returns (s: Segment)
    requires buf.Length == UDP_SEGMENT_SIZE
    ensures s == Decode(buf[..])
  {
    var sequenceNum, byteRead := TakeInt(buf, 0);
    var ackNum, rwnd, timestamp;
    ackNum, byteRead := TakeInt(buf, byteRead);
    rwnd, byteRead := TakeInt(buf, byteRead + 4);
    timestamp, byteRead := TakeInt(buf, byteRead);
    var payload := new byte[UDP_PAYLOAD_SIZE](_ => 0);
    byteRead := byteRead + 1;
    for j := 0 to UDP_PAYLOAD_SIZE
      invariant byteRead == 21 + j
      invariant payload[..j] == buf[21..byteRead]
    {
      payload[j] := buf[byteRead];
      byteRead := byteRead + 1;
    }
    assert payload[..] == buf[..][21..512];
    s := Segment(sequenceNum, ackNum, CharOf(buf[8]), CharOf(buf[9]), CharOf(buf[10]), CharOf(buf[11]),
                 rwnd, timestamp, CharOf(buf[20]), payload[..]);
    assert buf[..][0..4] == buf[0..4] && buf[..][4..8] == buf[4..8];
    assert buf[..][12..16] == buf[12..16] && buf[..][16..20] == buf[16..20];
  }

  // ----- round trips

  /** The four bytes of n are its digits in base 256, the leading one signed. */
  lemma Digits(n: int, q1: int, q2: int, q3: int, r0: int, r1: int, r2: int)
    requires n == 0x100 * q1 + r0 && q1 == 0x100 * q2 + r1 && q2 == 0x100 * q3 + r2
    requires 0 <= r0 < 0x100 && 0 <= r1 < 0x100 && 0 <= r2 < 0x100
    ensures IntByte(n, 3) == r0 && IntByte(n, 2) == r1 && IntByte(n, 1) == r2 && IntByte(n, 0) == q3 % 0x100
  {
    assert n / 0x100 == q1;
    assert n / 0x1_0000 == q2 by { assert n == 0x1_0000 * q2 + (0x100 * r1 + r0); }
    assert n / 0x100_0000 == q3 by { assert n == 0x100_0000 * q3 + (0x1_0000 * r2 + 0x100 * r1 + r0); }
  }

  /** A 32-bit number in base 256: the leading digit is a signed 8-bit number. */
  lemma Expand(n: int) returns (q3: int, r2: byte, r1: byte, r0: byte)
    requires Is32(n)
    ensures n == 0x100_0000 * q3 + 0x1_0000 * r2 as int + 0x100 * r1 as int + r0 as int && Is8(q3)
    ensures IntBytes(n) == [q3 % 0x100, r2, r1, r0]
  {
    var q1 := n / 0x100;
    var q2 := q1 / 0x100;
    q3 := q2 / 0x100;
    r2, r1, r0 := q2 % 0x100, q1 % 0x100, n % 0x100;
    Digits(n, q1, q2, q3, r0, r1, r2);
  }

  /** Reading the digits back. */
  lemma Collect(q3: int, r2: byte, r1: byte, r0: byte)
    requires Is8(q3)
    ensures IntOf([q3 % 0x100, r2, r1, r0]) == 0x100_0000 * q3 + 0x1_0000 * r2 as int + 0x100 * r1 as int + r0 as int
  {
    assert q3 % 0x100 == if q3 < 0 then q3 + 0x100 else q3;
  }

  lemma IntRoundTrip(n: int)
    requires Is32(n)
    ensures IntOf(IntBytes(n)) == n
  {
    var q3, r2, r1, r0 := Expand(n);
    Collect(q3, r2, r1, r0);
  }

  lemma BytesRoundTrip(b: seq<byte>)
    requires |b| == 4
    ensures IntBytes(IntOf(b)) == b
  {
    var q3: int := if b[0] < 0x80 then b[0] else b[0] as int - 0x100;
    var q2 := 0x100 * q3 + b[1];
    Digits(IntOf(b), 0x100 * q2 + b[2], q2, q3, b[3], b[2], b[1]);
  }

  lemma HeaderSlices(s: Segment, tail: seq<byte>)
    requires |tail| == UDP_SEGMENT_SIZE - 20
    ensures var b := Header(s) + tail;
      && b[0..4] == IntBytes(s.seqNum) && b[4..8] == IntBytes(s.ackNum)
      && b[8..12] == FlagBytes(s) && b[8] == FlagBytes(s)[0] && b[9] == FlagBytes(s)[1]
      && b[10] == FlagBytes(s)[2] && b[11] == FlagBytes(s)[3]
      && b[12..16] == IntBytes(s.rwnd) && b[16..20] == IntBytes(s.timestamp)
      && b[20] == tail[0] && b[21..512] == tail[1..]
  {
    var b := Header(s) + tail;
    assert b[12..16] == IntBytes(s.rwnd);
    assert b[16..20] == IntBytes(s.timestamp);
    assert b[21..512] == tail[1..];
  }

  lemma CharRoundTrip(c: int)
    requires Is8(c)
    ensures CharOf(c % 0x100) == c
  {
  }

  lemma HeaderRoundTrip(s: Segment, tail: seq<byte>)
    requires Representable(s) && |tail| == UDP_SEGMENT_SIZE - 20
    ensures var d := Decode(Header(s) + tail);
      d == s.(isLastInIter := CharOf(tail[0]), payload := tail[1..])
  {
    HeaderSlices(s, tail);
    IntRoundTrip(s.seqNum);
    IntRoundTrip(s.ackNum);
    IntRoundTrip(s.rwnd);
    IntRoundTrip(s.timestamp);
    CharRoundTrip(s.isEof);
    CharRoundTrip(s.isProbe);
    CharRoundTrip(s.isComplete);
    CharRoundTrip(s.isResent);
  }

  /** Decoding what was encoded gives the same segment, negative fields included. */
  lemma RoundTrip(s: Segment)
    requires Representable(s)
    ensures |Encode(s)| == UDP_SEGMENT_SIZE
    ensures Decode(Encode(s)) == s
  {
    var tail := [s.isLastInIter % 0x100] + s.payload;
    assert Encode(s) == Header(s) + tail;
    assert tail[1..] == s.payload;
    HeaderRoundTrip(s, tail);
  }

  /** Equal datagrams carry equal segments, and every datagram is some segment's encoding. */
  lemma DecodeInverts(b: seq<byte>)
    requires |b| == UDP_SEGMENT_SIZE
    ensures Encode(Decode(b)) == b
  {
    var d := Decode(b);
    BytesRoundTrip(b[0..4]);
    BytesRoundTrip(b[4..8]);
    BytesRoundTrip(b[12..16]);
    BytesRoundTrip(b[16..20]);
    assert FlagBytes(d) == b[8..12];
    assert d.isLastInIter % 0x100 == b[20];
    assert b == b[0..4] + b[4..8] + b[8..12] + b[12..16] + b[16..20] + [b[20]] + b[21..512];
  }

  /**
    The shifted TIME_WAIT datagram still decodes to the same numbers and flags; only
    the last-in-iteration flag and the payload are shifted by one byte, and for the
    all-zero payload that TIME_WAIT replies carry the flag still reads as clear.
   */
  lemma TimeWaitRoundTrip(s: Segment, junk: byte)
    requires Representable(s)
    ensures |EncodeTimeWait(s)| == UDP_SEGMENT_SIZE - 1
    ensures Decode(EncodeTimeWait(s) + [junk])
      == s.(isLastInIter := CharOf(s.payload[0]), payload := s.payload[1..] + [junk])
    ensures s.payload[0] == 0 ==> Decode(EncodeTimeWait(s) + [junk]).isLastInIter == 0
  {
    var tail := s.payload + [junk];
    assert EncodeTimeWait(s) + [junk] == Header(s) + tail;
    HeaderRoundTrip(s, tail);
    assert tail[1..] == s.payload[1..] + [junk];
  }

  // ----- where the fields are

  /** The four bytes from `at` on, most significant first, are n in two's complement. */
  predicate BigEndianAt(b: seq<byte>, at: nat, n: int)
    requires at + 4 <= |b|
  {
    (b[at] as int) * 0x100_0000 + (b[at + 1] as int) * 0x1_0000 + (b[at + 2] as int) * 0x100 + b[at + 3] as int
      == n % 0x1_0000_0000
  }

  lemma FieldAt(b: seq<byte>, at: nat, n: int)
    requires Is32(n) && at + 4 <= |b| && b[at..at + 4] == IntBytes(n)
    ensures BigEndianAt(b, at, n)
  {
    var q3, r2, r1, r0 := Expand(n);
    var four := b[at..at + 4];
    assert b[at] == four[0] && b[at + 1] == four[1] && b[at + 2] == four[2] && b[at + 3] == four[3];
  }

  /** The 20 bytes both encoders start with. */
  predicate HeaderLayout(b: seq<byte>, s: Segment)
    requires |b| >= 20
  {
    && BigEndianAt(b, 0, s.seqNum) && BigEndianAt(b, 4, s.ackNum)
    && b[8] == s.isEof % 0x100 && b[9] == s.isProbe % 0x100
    && b[10] == s.isComplete % 0x100 && b[11] == s.isResent % 0x100
    && BigEndianAt(b, 12, s.rwnd) && BigEndianAt(b, 16, s.timestamp)
  }

  lemma HeaderFields(s: Segment, tail: seq<byte>)
    requires Representable(s) && |tail| == UDP_SEGMENT_SIZE - 20
    ensures HeaderLayout(Header(s) + tail, s)
  {
    HeaderSlices(s, tail);
    var b := Header(s) + tail;
    FieldAt(b, 0, s.seqNum);
    FieldAt(b, 4, s.ackNum);
    FieldAt(b, 12, s.rwnd);
    FieldAt(b, 16, s.timestamp);
  }

  /** Where each field is in the datagram: numbers big-endian at 0, 4, 12 and 16, flags at 8 to 11
      and 20, the payload from 21 on, and one place earlier in what TIME_WAIT sends. */
  lemma WireLayout(s: Segment, junk: byte)
    requires Representable(s)
    ensures |Encode(s)| == UDP_SEGMENT_SIZE && HeaderLayout(Encode(s), s)
    ensures Encode(s)[20] == s.isLastInIter % 0x100 && Encode(s)[21..] == s.payload
    ensures |EncodeTimeWait(s)| == UDP_SEGMENT_SIZE - 1 && HeaderLayout(EncodeTimeWait(s) + [junk], s)
    ensures EncodeTimeWait(s)[20..] == s.payload
  {
    var tail := [s.isLastInIter % 0x100] + s.payload;
    assert Encode(s) == Header(s) + tail;
    HeaderFields(s, tail);
    assert EncodeTimeWait(s) + [junk] == Header(s) + (s.payload + [junk]);
    HeaderFields(s, s.payload + [junk]);
  }
}
