/** The framed transport: one frame at a time, and the receive loop that reassembles a byte stream. */
module Frames {
  import opened Words
  import opened Types
  import Crc
  import Bursts

  const MAGIC: Bytes := [0x4D, 0x45, 0x46, 0x57]
  const VERSION: nat := 1
  const MAX_PAYLOAD: nat := 1024 * 1024
  const HEADER: nat := 16

  type U16 = x: int | 0 <= x < 0x1_0000

  datatype Frame = Frame(kind: U16, payload: Bytes)

  datatype Decoding = Decoded(frame: Frame, consumed: nat) | Incomplete | Malformed

  /** The explicit set of frame types: HELLO (1) up to SAVE_RESP (24). */
  predicate IsKnownFrameType(kind: int) { 1 <= kind <= 24 }

  function Header(f: Frame): (h: Bytes)
    ensures |h| == HEADER
  {
    MAGIC + LittleEndian(VERSION, 2) + LittleEndian(f.kind, 2)
    + LittleEndian(|f.payload|, 4) + LittleEndian(Crc.Checksum(f.payload), 4)
  }

  function EncodeFrame(f: Frame): Result<Bytes> {
    if |f.payload| > MAX_PAYLOAD then Fail(FrameTooLarge) else Ok(Header(f) + f.payload)
  }

  function DecodeFrame(b: Bytes): (d: Decoding)
    ensures d.Decoded? ==> HEADER <= d.consumed <= |b|
  {
    if |b| < HEADER then Incomplete
    else if b[..4] != MAGIC then Malformed
    else if FromLittleEndian(b[4..6]) != VERSION then Malformed
    else if !IsKnownFrameType(FromLittleEndian(b[6..8])) then Malformed
    else
      var plen := FromLittleEndian(b[8..12]);
      if plen > MAX_PAYLOAD then Malformed
      else if |b| < HEADER + plen then Incomplete
      else if Crc.Checksum(b[16..16 + plen]) != FromLittleEndian(b[12..16]) then Malformed
      else Decoded(Frame(FromLittleEndian(b[6..8]), b[16..16 + plen]), HEADER + plen)
  }

  // ---- One frame ----

  predicate Sendable(f: Frame) { IsKnownFrameType(f.kind) && |f.payload| <= MAX_PAYLOAD }

  lemma HeaderFields(f: Frame, b: Bytes)
    requires |f.payload| <= MAX_PAYLOAD && Header(f) <= b
    ensures b[..4] == MAGIC && FromLittleEndian(b[4..6]) == VERSION
    ensures FromLittleEndian(b[6..8]) == f.kind && FromLittleEndian(b[8..12]) == |f.payload|
    ensures FromLittleEndian(b[12..16]) == Crc.Checksum(f.payload)
  {
    Spans();
    var h := Header(f);
    assert b[..4] == h[..4] && b[4..6] == h[4..6] && b[6..8] == h[6..8];
    assert b[8..12] == h[8..12] && b[12..16] == h[12..16];
    assert h[4..6] == LittleEndian(VERSION, 2) && h[6..8] == LittleEndian(f.kind, 2);
    assert h[8..12] == LittleEndian(|f.payload|, 4);
    assert h[12..16] == LittleEndian(Crc.Checksum(f.payload), 4);
    ReadBack(VERSION, 2);
    ReadBack(f.kind, 2);
    ReadBack(|f.payload|, 4);
    Crc.ChecksumBound(f.payload);
    ReadBack(Crc.Checksum(f.payload), 4);
  }

  lemma FrameRoundTrip(f: Frame, rest: Bytes)
    requires Sendable(f)
    ensures DecodeFrame(EncodeFrame(f).value + rest) == Decoded(f, HEADER + |f.payload|)
  {
    var b := Header(f) + f.payload + rest;
    HeaderFields(f, b);
    assert b[16..16 + |f.payload|] == f.payload;
  }

  /** A strict prefix of a frame is never mistaken for a frame or an error. */
  lemma FramePrefixIncomplete(f: Frame, b: Bytes)
    requires Sendable(f) && b < EncodeFrame(f).value
    ensures DecodeFrame(b) == Incomplete
  {
    if |b| >= HEADER {
      var whole := Header(f) + f.payload;
      assert Header(f) == whole[..16] == b[..16];
      HeaderFields(f, b);
    }
  }

  lemma SplitHeader(b: Bytes)
    requires |b| >= HEADER
    ensures b == (b[..4] + b[4..6] + b[6..8] + b[8..12] + b[12..16]) + b[16..]
  {
  }

  /** Whatever the decoder accepts is the encoding of the frame it returns. */
  lemma FrameExact(b: Bytes)
    requires DecodeFrame(b).Decoded?
    ensures Sendable(DecodeFrame(b).frame)
    ensures EncodeFrame(DecodeFrame(b).frame) == Ok(b[..DecodeFrame(b).consumed])
  {
    var Decoded(f, n) := DecodeFrame(b);
    var x := b[..n];
    assert x[..4] == b[..4] && x[4..6] == b[4..6] && x[6..8] == b[6..8] && x[8..12] == b[8..12];
    assert x[12..16] == b[12..16] && x[16..] == b[16..n];
    SplitHeader(x);
    WriteBack(b[4..6]);
    WriteBack(b[6..8]);
    WriteBack(b[8..12]);
    WriteBack(b[12..16]);
  }

  /** Damage to the magic, the version, the checksum or the payload is always refused. */
  lemma DamagedStartRefused(f: Frame, b: Bytes, i: nat)
    requires Sendable(f) && Crc.DifferOnlyAt(EncodeFrame(f).value, b, i) && i < 6
    ensures DecodeFrame(b) == Malformed
  {
    hide Crc.Checksum;
    var whole := Header(f) + f.payload;
    HeaderFields(f, whole);
    if i < 4 {
      assert b[..4][i] != whole[..4][i];
    } else {
      assert b[4..6][i - 4] != whole[4..6][i - 4];
      WordsDiffer(b[4..6], whole[4..6]);
    }
  }

  lemma DamagedPayloadRefused(f: Frame, b: Bytes, i: nat)
    requires Sendable(f) && Crc.DifferOnlyAt(EncodeFrame(f).value, b, i) && 12 <= i
    ensures DecodeFrame(b) == Malformed
  {
    hide Crc.Checksum;
    var whole := Header(f) + f.payload;
    HeaderFields(f, whole);
    assert b[..4] == whole[..4] && b[4..6] == whole[4..6] && b[6..8] == whole[6..8] && b[8..12] == whole[8..12];
    assert whole[16..] == f.payload && b[16..16 + |f.payload|] == b[16..];
    if i < 16 {
      assert b[16..] == whole[16..];
      assert b[12..16][i - 12] != whole[12..16][i - 12];
      WordsDiffer(b[12..16], whole[12..16]);
    } else {
      assert b[12..16] == whole[12..16];
      Crc.ChecksumDetectsOneByte(f.payload, b[16..], i - 16);
    }
  }

  /** A damaged type is caught only if no such type exists; otherwise the same payload arrives under another type. */
  lemma DamagedTypeVerdict(f: Frame, b: Bytes, i: nat)
    requires Sendable(f) && Crc.DifferOnlyAt(EncodeFrame(f).value, b, i) && 6 <= i < 8
    ensures |b| == HEADER + |f.payload| && FromLittleEndian(b[6..8]) != f.kind
    ensures DecodeFrame(b) == if IsKnownFrameType(FromLittleEndian(b[6..8]))
                              then Decoded(Frame(FromLittleEndian(b[6..8]), f.payload), HEADER + |f.payload|) else Malformed
  {
    var whole := Header(f) + f.payload;
    HeaderFields(f, whole);
    assert b[..4] == whole[..4] && b[4..6] == whole[4..6] && b[8..12] == whole[8..12] && b[12..16] == whole[12..16];
    assert b[16..16 + |f.payload|] == whole[16..] == f.payload;
    assert b[6..8][i - 6] != whole[6..8][i - 6];
    WordsDiffer(b[6..8], whole[6..8]);
    hide Crc.Checksum;
  }

  /**
   A damaged length is refused when over the maximum, leaves the frame incomplete when too long, and
   when too short yields a shorter frame exactly if that part of the payload has the same checksum.
   */
  lemma DamagedLengthVerdict(f: Frame, b: Bytes, i: nat)
    requires Sendable(f) && Crc.DifferOnlyAt(EncodeFrame(f).value, b, i) && 8 <= i < 12
    ensures |b| == HEADER + |f.payload| && FromLittleEndian(b[8..12]) != |f.payload|
    ensures var n := FromLittleEndian(b[8..12]);
            DecodeFrame(b) == if n > MAX_PAYLOAD then Malformed
                              else if n > |f.payload| then Incomplete
                              else if Crc.Checksum(f.payload[..n]) == Crc.Checksum(f.payload)
                              then Decoded(Frame(f.kind, f.payload[..n]), HEADER + n)
                              else Malformed
  {
    var whole := Header(f) + f.payload;
    HeaderFields(f, whole);
    assert b[..4] == whole[..4] && b[4..6] == whole[4..6] && b[6..8] == whole[6..8] && b[12..16] == whole[12..16];
    assert b[8..12][i - 8] != whole[8..12][i - 8];
    WordsDiffer(b[8..12], whole[8..12]);
    var n := FromLittleEndian(b[8..12]);
    if n <= |f.payload| { assert b[16..16 + n] == whole[16..16 + n] == f.payload[..n]; }
    hide Crc.Checksum;
  }

  /** The verdict on a frame with one damaged byte, wherever it is: when it is refused, and what is read when it is not. */
  lemma DamagedFrameVerdict(f: Frame, b: Bytes, i: nat)
    requires Sendable(f) && Crc.DifferOnlyAt(EncodeFrame(f).value, b, i)
    ensures |b| == HEADER + |f.payload|
    ensures var kind, n := FromLittleEndian(b[6..8]), FromLittleEndian(b[8..12]);
            DecodeFrame(b) == if 6 <= i < 8 && IsKnownFrameType(kind) then Decoded(Frame(kind, f.payload), |b|)
                              else if 8 <= i < 12 && |f.payload| < n <= MAX_PAYLOAD then Incomplete
                              else if 8 <= i < 12 && n < |f.payload| && Crc.Checksum(f.payload[..n]) == Crc.Checksum(f.payload)
                              then Decoded(Frame(f.kind, f.payload[..n]), HEADER + n)
                              else Malformed
  {
    hide DecodeFrame, Crc.Checksum, FromLittleEndian;
    if 6 <= i < 8 { DamagedTypeVerdict(f, b, i); }
    else if 8 <= i < 12 { DamagedLengthVerdict(f, b, i); }
    else if i < 6 { DamagedStartRefused(f, b, i); }
    else { DamagedPayloadRefused(f, b, i); }
  }

  /** A payload damaged in up to 32 consecutive bits is always refused. */
  lemma PayloadBurstRefused(f: Frame, b: Bytes, at: nat, w: nat)
    requires Sendable(f) && HEADER <= |b| && b[..HEADER] == EncodeFrame(f).value[..HEADER]
    requires Bursts.Burst(f.payload, b[HEADER..], at, w)
    ensures DecodeFrame(b) == Malformed
  {
    Bursts.ChecksumDetectsBurst(f.payload, b[HEADER..], at, w);
    hide Crc.Checksum, Bursts.Burst;
    var whole := Header(f) + f.payload;
    assert whole[..HEADER] == Header(f) && Header(f) <= b;
    HeaderFields(f, b);
    assert b[16..16 + |f.payload|] == b[16..];
  }

  /** So is one damaged in up to four consecutive bytes. */
  lemma FourPayloadBytesRefused(f: Frame, b: Bytes, i: nat, n: nat)
    requires Sendable(f) && Bursts.DifferWithin(EncodeFrame(f).value, b, i, n) && HEADER <= i && n <= 4
    ensures DecodeFrame(b) == Malformed
  {
    hide DecodeFrame, FromLittleEndian, Xor, Bursts.Burst;
    Bursts.BehindHeader(Header(f), f.payload, b, i, n);
    assert (Header(f) + f.payload)[..HEADER] == Header(f);
    var y, j := b[HEADER..], i - HEADER;
    Bursts.FourBytesAreABurst(f.payload, y, j, n);
    PayloadBurstRefused(f, b, 8 * j, Xor(FromLittleEndian(f.payload[j..j + n]), FromLittleEndian(y[j..j + n])));
  }

  const COMMIT: U16 := 11
  const RELEASE: U16 := 13

  /** The type is not under the checksum: one changed byte turns any COMMIT into a RELEASE of the same payload. */
  lemma CommitReadAsRelease(payload: Bytes) returns (b: Bytes)
    requires |payload| <= MAX_PAYLOAD
    ensures Crc.DifferOnlyAt(EncodeFrame(Frame(COMMIT, payload)).value, b, 6)
    ensures DecodeFrame(b) == Decoded(Frame(RELEASE, payload), HEADER + |payload|)
  {
    var f := Frame(COMMIT, payload);
    var whole := Header(f) + payload;
    HeaderFields(f, whole);
    assert LittleEndian(11, 2) == [11] + LittleEndian(0, 1) && LittleEndian(0, 1) == [0] + LittleEndian(0, 0);
    assert whole[6] == 11 && whole[7] == 0;
    b := whole[6 := 13];
    assert b[6..8] == [13, 0] && [13, 0][1..] == [0] && [0][1..] == [];
    assert FromLittleEndian([0]) == 0 && FromLittleEndian(b[6..8]) == 13;
    DamagedTypeVerdict(f, b, 6);
  }

  /** Once decided, the verdict on a buffer does not change when more bytes arrive. */
  lemma DecisionStable(b: Bytes, more: Bytes)
    requires DecodeFrame(b) != Incomplete
    ensures DecodeFrame(b + more) == DecodeFrame(b)
  {
    var c := b + more;
    assert c[..4] == b[..4] && c[4..6] == b[4..6] && c[6..8] == b[6..8];
    assert c[8..12] == b[8..12] && c[12..16] == b[12..16];
    var plen := FromLittleEndian(b[8..12]);
    if HEADER + plen <= |b| {
      assert c[16..16 + plen] == b[16..16 + plen];
    }
  }

  // ---- The stream ----

  /** All frames of a byte stream, whether it then turned bad, and the bytes left undecided. */
  datatype Stream = Stream(frames: seq<Frame>, failed: bool, rest: Bytes)

  function Parse(b: Bytes): Stream
    decreases |b|
  {
    match DecodeFrame(b)
    case Incomplete => Stream([], false, b)
    case Malformed => Stream([], true, b)
    case Decoded(f, n) =>
      var s := Parse(b[n..]);
      Stream([f] + s.frames, s.failed, s.rest)
  }

  function Prepend(fs: seq<Frame>, s: Stream): Stream { s.(frames := fs + s.frames) }

  lemma ParseOne(b: Bytes, f: Frame, n: nat)
    requires DecodeFrame(b) == Decoded(f, n)
    ensures n <= |b| && Parse(b) == Prepend([f], Parse(b[n..]))
  {
  }

  lemma PrependTwice(fs: seq<Frame>, gs: seq<Frame>, s: Stream)
    ensures Prepend(fs, Prepend(gs, s)) == Prepend(fs + gs, s) && Prepend([], s) == s
  {
    assert fs + (gs + s.frames) == (fs + gs) + s.frames && [] + s.frames == s.frames;
  }

  ghost predicate Resumes(a: Bytes, more: Bytes) {
    var s := Parse(a);
    if s.failed then Parse(a + more).frames == s.frames && Parse(a + more).failed
    else Parse(a + more) == Prepend(s.frames, Parse(s.rest + more))
  }

  lemma ResumesAfterFrame(a: Bytes, more: Bytes, f: Frame, n: nat)
    requires DecodeFrame(a) == Decoded(f, n) && n <= |a| && Resumes(a[n..], more)
    ensures Resumes(a, more)
  {
    hide DecodeFrame, Parse;
    DecisionStable(a, more);
    ParseOne(a, f, n);
    ParseOne(a + more, f, n);
    assert (a + more)[n..] == a[n..] + more;
    var s := Parse(a[n..]);
    PrependTwice([f], s.frames, Parse(s.rest + more));
  }

  /** Parsing may stop at any point of the stream and resume from what it left. */
  lemma {:induction false} ParseResumes(a: Bytes, more: Bytes)
    ensures Resumes(a, more)
    decreases |a|
  {
    match DecodeFrame(a)
    case Incomplete =>
      PrependTwice([], [], Parse(a + more));
    case Malformed =>
      DecisionStable(a, more);
    case Decoded(f, n) =>
      ParseResumes(a[n..], more);
      ResumesAfterFrame(a, more, f, n);
  }

  function Flatten(chunks: seq<Bytes>): Bytes {
    if chunks == [] then [] else chunks[0] + Flatten(chunks[1..])
  }

  lemma {:induction false} FlattenConcat(xs: seq<Bytes>, ys: seq<Bytes>)
    ensures Flatten(xs + ys) == Flatten(xs) + Flatten(ys)
  {
    if xs == [] {
      assert xs + ys == ys;
    } else {
      assert (xs + ys)[1..] == xs[1..] + ys;
      FlattenConcat(xs[1..], ys);
    }
  }

  /**
   The receive loop of one connection: append each chunk to the buffer, then decode and dispatch
   frames until the buffer is undecided or bad; a bad buffer closes the connection.
   */
  method Receive(chunks: seq<Bytes>) returns (dispatched: seq<Frame>, failed: bool, buf: Bytes)
    ensures dispatched == Parse(Flatten(chunks)).frames
    ensures failed == Parse(Flatten(chunks)).failed
    ensures !failed ==> buf == Parse(Flatten(chunks)).rest
  {
    dispatched, failed, buf := [], false, [];
    var i := 0;
    while i < |chunks| && !failed
      invariant i <= |chunks|
      invariant !failed ==> Parse(Flatten(chunks[..i])) == Stream(dispatched, false, buf)
      invariant failed ==> Parse(Flatten(chunks[..i])).frames == dispatched && Parse(Flatten(chunks[..i])).failed
    {
      ghost var before := Flatten(chunks[..i]);
      ghost var sent := dispatched;
      buf := buf + chunks[i];
      ghost var arrived := buf;
      assert chunks[..i + 1] == chunks[..i] + [chunks[i]];
      FlattenConcat(chunks[..i], [chunks[i]]);
      assert Flatten([chunks[i]]) == chunks[i] + Flatten([]) == chunks[i];
      ParseResumes(before, chunks[i]);
      assert Parse(Flatten(chunks[..i + 1])) == Prepend(sent, Parse(arrived));
      failed, buf, dispatched := Drain(buf, dispatched);
      i := i + 1;
    }
    assert chunks == chunks[..i] + chunks[i..];
    FlattenConcat(chunks[..i], chunks[i..]);
    if failed {
      ParseResumes(Flatten(chunks[..i]), Flatten(chunks[i..]));
    } else {
      assert chunks[i..] == [];
      assert Flatten(chunks[..i]) + [] == Flatten(chunks[..i]);
    }
  }

  /** The inner loop. It terminates because every decoded frame consumes at least a header. */
  method Drain(arrived: Bytes, sent: seq<Frame>) returns (failed: bool, buf: Bytes, dispatched: seq<Frame>)
    ensures Stream(dispatched, failed, buf) == Prepend(sent, Parse(arrived))
  {
    failed, buf, dispatched := false, arrived, sent;
    while true
      invariant Prepend(sent, Parse(arrived)) == Prepend(dispatched, Parse(buf))
      decreases |buf|
    {
      var d := DecodeFrame(buf);
      match d
      case Incomplete =>
        return;
      case Malformed =>
        failed := true;
        return;
      case Decoded(f, consumed) =>
        assert dispatched + ([f] + Parse(buf[consumed..]).frames) == (dispatched + [f]) + Parse(buf[consumed..]).frames;
        buf := buf[consumed..];
        dispatched := dispatched + [f];
    }
  }

  function SendAll(fs: seq<Frame>): Bytes
    requires forall f :: f in fs ==> Sendable(f)
  {
    if fs == [] then [] else
      assert Sendable(fs[0]);
      EncodeFrame(fs[0]).value + SendAll(fs[1..])
  }

  /** Any cutting of the encodings of any frames delivers exactly those frames, in order. */
  lemma {:induction false} SentFramesDelivered(fs: seq<Frame>)
    requires forall f :: f in fs ==> Sendable(f)
    ensures Parse(SendAll(fs)) == Stream(fs, false, [])
  {
    if fs != [] {
      hide Parse, DecodeFrame, EncodeFrame;
      var f, rest := fs[0], SendAll(fs[1..]);
      FrameRoundTrip(f, rest);
      var b := EncodeFrame(f).value + rest;
      assert b[HEADER + |f.payload|..] == rest;
      ParseOne(b, f, HEADER + |f.payload|);
      SentFramesDelivered(fs[1..]);
      assert [f] + fs[1..] == fs;
    }
  }
}
