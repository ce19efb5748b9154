/**
  Segments of the file transfer: the 512-byte segment record, how the sender cuts
  a file into 491-byte payloads, and what the client's consumer prints.
 */
module Segments {

  const UDP_PAYLOAD_SIZE := 491
  const UDP_SEGMENT_SIZE := 512

  type byte = b: int | 0 <= b < 0x100

  /** The source's `struct segment`; flags are C `char`s, tested with `> 0`. */
  datatype Segment = Segment(
    seqNum: int, ackNum: int,
    isEof: int, isProbe: int, isComplete: int, isResent: int,
    rwnd: int, timestamp: int, isLastInIter: int,
    payload: seq<byte>)

  function Zeros(n: nat): (z: seq<byte>)
    ensures |z| == n && forall i :: 0 <= i < n ==> z[i] == 0
  {
    seq(n, _ => 0)
  }

  /** What `memset(&seg, 0, sizeof seg)` leaves. */
  function Blank(): Segment {
    Segment(0, 0, 0, 0, 0, 0, 0, 0, 0, Zeros(UDP_PAYLOAD_SIZE))
  }

  /** Number of the last segment of a non-empty file; segments count from 1. */
  function LastSegment(file: seq<byte>): (n: nat)
    requires file != []
    ensures 1 <= n && (n - 1) * UDP_PAYLOAD_SIZE < |file| <= n * UDP_PAYLOAD_SIZE
  {
    (|file| - 1) / UDP_PAYLOAD_SIZE + 1
  }

  predicate InFile(file: seq<byte>, k: int) {
    file != [] && 1 <= k <= LastSegment(file)
  }

  function Min(a: int, b: int): int { if a < b then a else b }

  /** The k-th slice of the file. */
  function Chunk(file: seq<byte>, k: int): (c: seq<byte>)
    requires InFile(file, k)
    ensures 0 < |c| <= UDP_PAYLOAD_SIZE
  {
    file[(k - 1) * UDP_PAYLOAD_SIZE .. Min(k * UDP_PAYLOAD_SIZE, |file|)]
  }

  function Padded(c: seq<byte>): (p: seq<byte>)
    requires |c| <= UDP_PAYLOAD_SIZE
    ensures |p| == UDP_PAYLOAD_SIZE
  {
    c + Zeros(UDP_PAYLOAD_SIZE - |c|)
  }

  /** The segment the send loop builds for number k. */
  function DataSegment(file: seq<byte>, k: int): Segment
    requires InFile(file, k)
  {
    Blank().(seqNum := k,
             isEof := if k == LastSegment(file) then 1 else 0,
             payload := Padded(Chunk(file, k)))
  }

  /** Bytes `printf("%.*s", 491, payload)` writes: everything before the first NUL. */
  function Printed(p: seq<byte>): (t: seq<byte>)
    ensures 0 !in t && t <= p
  {
    if p == [] || p[0] == 0 then [] else [p[0]] + Printed(p[1..])
  }

  /** Everything a consumer writes when it prints these segments in this order. */
  function Output(segs: seq<Segment>): seq<byte> {
    if segs == [] then []
    else Output(segs[..|segs| - 1]) + Printed(segs[|segs| - 1].payload)
  }

  /** The copy loop that fills one payload, including its end-of-file test. */
  method FillPayload(file: seq<byte>, k: int) returns (payload: seq<byte>, isEof: int)
    requires InFile(file, k)
    ensures payload == DataSegment(file, k).payload
    ensures isEof == DataSegment(file, k).isEof
  {
    var buf := new byte[UDP_PAYLOAD_SIZE](_ => 0);
    isEof := 0;
    var start := (k - 1) * UDP_PAYLOAD_SIZE;
    var copyByte := start;
    var j := 0;
    while j < UDP_PAYLOAD_SIZE
      invariant 0 <= j <= UDP_PAYLOAD_SIZE && copyByte == start + j < |file|
      invariant isEof == 0
      invariant buf[..j] == file[start .. start + j]
      invariant forall i :: j <= i < UDP_PAYLOAD_SIZE ==> buf[i] == 0
    {
      buf[j] := file[copyByte];
      copyByte := copyByte + 1;
      assert buf[..j + 1] == file[start .. start + j + 1];
      if copyByte == |file| {
        isEof := 1;
        break;
      }
      j := j + 1;
    }
    payload := buf[..];
    assert payload == Padded(Chunk(file, k));
  }

  lemma {:induction false} PrintedOfPadded(c: seq<byte>, n: nat)
    requires 0 !in c
    ensures Printed(c + Zeros(n)) == c
  {
    if c != [] {
      assert (c + Zeros(n))[1..] == c[1..] + Zeros(n);
      PrintedOfPadded(c[1..], n);
    }
  }

  /** Printing stops at the first NUL and nowhere else. */
  lemma {:induction false} PrintedToFirstNul(p: seq<byte>)
    ensures Printed(p) <= p && 0 !in Printed(p) && (|Printed(p)| < |p| ==> p[|Printed(p)|] == 0)
  {
    if p != [] { PrintedToFirstNul(p[1..]); }
  }

  /** A segment numbered k that carries the k-th slice of the file. */
  predicate IsSlice(file: seq<byte>, seg: Segment, k: int) {
    InFile(file, k) && seg.seqNum == k && seg.payload == Padded(Chunk(file, k))
  }

  /** Does this sequence hold the file's first segments, each once and in order? */
  ghost predicate IsFilePrefix(file: seq<byte>, segs: seq<Segment>) {
    forall i :: 0 <= i < |segs| ==> IsSlice(file, segs[i], i + 1)
  }

  lemma PrefixExtends(file: seq<byte>, segs: seq<Segment>, seg: Segment)
    requires IsFilePrefix(file, segs) && IsSlice(file, seg, |segs| + 1)
    ensures IsFilePrefix(file, segs + [seg])
  {
  }

  lemma {:induction false} OutputOfPrefix(file: seq<byte>, segs: seq<Segment>)
    requires file != [] && 0 !in file && IsFilePrefix(file, segs)
    ensures Output(segs) == file[.. Min(|segs| * UDP_PAYLOAD_SIZE, |file|)]
  {
    if segs != [] {
      var k := |segs|;
      OutputOfPrefix(file, segs[..k - 1]);
      assert IsSlice(file, segs[k - 1], k);
      PrintedOfPadded(Chunk(file, k), UDP_PAYLOAD_SIZE - |Chunk(file, k)|);
      assert (k - 1) * UDP_PAYLOAD_SIZE < |file|;
    }
  }

  lemma {:induction false} OutputHasNoNul(segs: seq<Segment>)
    ensures 0 !in Output(segs)
  {
    if segs != [] { OutputHasNoNul(segs[..|segs| - 1]); }
  }

  /**
    A consumer that printed every segment once and in order has reproduced the file
    byte for byte exactly when the file has no NUL byte.
   */
  lemma WholeFilePrinted(file: seq<byte>, segs: seq<Segment>)
    requires file != [] && IsFilePrefix(file, segs) && |segs| == LastSegment(file)
    ensures Output(segs) == file <==> 0 !in file
  {
    if 0 !in file {
      OutputOfPrefix(file, segs);
    } else {
      OutputHasNoNul(segs);
    }
  }
}
