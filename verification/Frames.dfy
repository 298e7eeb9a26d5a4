/** The framed protocol: a 12-byte header, the payload, and a digest of everything after the magic. */
module Frames {
  import opened Types
  import opened Coding
  import opened Digest

  const MAGIC: nat := 0x4641_4252
  const VERSION: nat := 1
  const HEADER_SIZE: nat := 12
  const MAX_PAYLOAD: nat := 0x100_0000
  const LAST_TYPE: nat := 21

  datatype Header = Header(messageType: Byte, payloadLen: nat, flags: Byte)

  // --- encode_frame ---------------------------------------------------------------------------

  function HeaderBytes(messageType: Byte, flags: Byte, length: nat): seq<Byte> {
    Le(MAGIC, 4) + [VERSION, messageType, flags, 0] + Le(length, 4)
  }

  function Frame(messageType: Byte, payload: seq<Byte>, flags: Byte): seq<Byte> {
    var body := HeaderBytes(messageType, flags, |payload|) + payload;
    body + Le(Fnv1a64(body[4..]), 8)
  }

  method EncodeFrame(messageType: Byte, payload: seq<Byte>, flags: Byte) returns (r: Result<seq<Byte>>)
    ensures r == if |payload| > MAX_PAYLOAD then Err(OversizedFrame) else Ok(Frame(messageType, payload, flags))
  {
    if |payload| > MAX_PAYLOAD { return Err(OversizedFrame); }
    var header := WriteHeader(messageType, flags, |payload|);
    var out := Sealed(header + payload);
    return Ok(out);
  }

  method Sealed(body: seq<Byte>) returns (out: seq<Byte>)
    requires |body| >= 4
    ensures out == body + Le(Fnv1a64(body[4..]), 8)
  {
    var span := body[4..];
    var digest := ComputeDigest(span);
    var foot := new ByteWriter();
    foot.PutWord(digest, 8);
    assert foot.buf == Le(digest, 8);
    out := body + foot.buf;
  }

  method WriteHeader(messageType: Byte, flags: Byte, length: nat) returns (header: seq<Byte>)
    ensures header == HeaderBytes(messageType, flags, length)
  {
    var w := new ByteWriter();
    w.PutWord(MAGIC, 4);
    w.PutByte(VERSION);
    w.PutByte(messageType);
    w.PutByte(flags);
    w.PutByte(0);
    w.PutWord(length, 4);
    header := w.buf;
  }

  // --- parse_header and check_digest ----------------------------------------------------------

  function ParseHeader(h: seq<Byte>): Result<Header>
    requires |h| == HEADER_SIZE
  {
    if UnLe(h[..4]) != MAGIC then Err(MalformedFrame)
    else if h[4] != VERSION then Err(UnsupportedVersion)
    else if h[5] > LAST_TYPE then Err(MalformedFrame)
    else if UnLe(h[8..12]) > MAX_PAYLOAD then Err(OversizedFrame)
    else Ok(Header(h[5], UnLe(h[8..12]), h[6]))
  }

  predicate DigestMatches(h: seq<Byte>, payload: seq<Byte>, digest: seq<Byte>)
    requires |h| == HEADER_SIZE && |digest| == 8
  {
    UnLe(digest) == Fnv1a64(h[4..] + payload)
  }

  /** What a receiver makes of one frame: header, then payload of the recorded length, then digest. */
  function Receive(s: seq<Byte>): Result<(Header, seq<Byte>)> {
    if |s| < HEADER_SIZE then Err(Truncation)
    else
      match ParseHeader(s[..12])
      case Err(e) => Err(e)
      case Ok(h) =>
        var n := h.payloadLen;
        if |s| < 12 + n + 8 then Err(Truncation)
        else if !DigestMatches(s[..12], s[12..12 + n], s[12 + n..12 + n + 8]) then Err(ChecksumMismatch)
        else Ok((h, s[12..12 + n]))
  }

  method ReadFrameHeader(h: seq<Byte>) returns (r: Result<Header>)
    requires |h| == HEADER_SIZE
    ensures r == ParseHeader(h)
  {
    var reader := new ByteReader(h);
    var magic := reader.NextWord(4);
    if magic.value != MAGIC { return Err(MalformedFrame); }
    var version := reader.ReadByte();
    if version.value != VERSION { return Err(UnsupportedVersion); }
    var messageType := reader.ReadByte();
    if messageType.value > LAST_TYPE { return Err(MalformedFrame); }
    var flags, length := ReadTail(reader);
    if length > MAX_PAYLOAD { return Err(OversizedFrame); }
    return Ok(Header(messageType.value, length, flags));
  }

  // Flags, the reserved byte and the length.
  method ReadTail(reader: ByteReader) returns (flags: Byte, length: nat)
    requires |reader.buf| == HEADER_SIZE && reader.pos == 6
    modifies reader
    ensures flags == reader.buf[6] && length == UnLe(reader.buf[8..12])
  {
    var f := reader.ReadByte();
    var reserved := reader.ReadByte();
    var w := reader.NextWord(4);
    flags, length := f.value, w.value;
  }

  method CheckDigest(h: seq<Byte>, payload: seq<Byte>, digest: seq<Byte>) returns (ok: bool)
    requires |h| == HEADER_SIZE && |digest| == 8
    ensures ok <==> DigestMatches(h, payload, digest)
  {
    var computed := ComputeDigest(h[4..] + payload);
    var reader := new ByteReader(digest);
    var stored := reader.NextWord(8);
    assert digest[0..8] == digest;
    ok := computed == stored.value;
  }

  // --- round trip -----------------------------------------------------------------------------

  lemma FrameParts(messageType: Byte, payload: seq<Byte>, flags: Byte)
    ensures var f, h, n := Frame(messageType, payload, flags), HeaderBytes(messageType, flags, |payload|), |payload|;
      && |f| == 12 + n + 8 && f[..12] == h && f[12..12 + n] == payload
      && f[12 + n..12 + n + 8] == Le(Fnv1a64(h[4..] + payload), 8)
  {
    var h := HeaderBytes(messageType, flags, |payload|);
    assert |h| == 12 && (h + payload)[4..] == h[4..] + payload;
  }

  lemma HeaderParts(messageType: Byte, flags: Byte, n: nat)
    ensures var h := HeaderBytes(messageType, flags, n);
      && |h| == 12 && h[..4] == Le(MAGIC, 4) && h[4] == VERSION && h[5] == messageType && h[6] == flags && h[8..12] == Le(n, 4)
  {}

  /** A frame of a known type within the bound is received as it was sent. */
  lemma FrameRoundTrip(messageType: Byte, payload: seq<Byte>, flags: Byte)
    requires messageType <= LAST_TYPE && |payload| <= MAX_PAYLOAD
    ensures Receive(Frame(messageType, payload, flags)) == Ok((Header(messageType, |payload|, flags), payload))
  {
    FrameParts(messageType, payload, flags);
    HeaderParts(messageType, flags, |payload|);
    Widths();
    UnLeOfLe(MAGIC, 4);
    UnLeOfLe(|payload|, 4);
    UnLeOfLe(Fnv1a64(HeaderBytes(messageType, flags, |payload|)[4..] + payload), 8);
  }

  // --- damage ---------------------------------------------------------------------------------

  // The bytes the digest covers, before and after one of them is altered.
  lemma SpanOfUpdate(f: seq<Byte>, n: nat, i: nat, b: Byte)
    requires |f| == 12 + n + 8 && 4 <= i < 12 + n
    ensures f[..12][4..] + f[12..12 + n] == f[4..12 + n]
    ensures f[i := b][..12][4..] + f[i := b][12..12 + n] == f[4..12 + n][i - 4 := b]
    ensures f[i := b][12 + n..12 + n + 8] == f[12 + n..12 + n + 8]
  {}

  lemma DigestDamage(messageType: Byte, payload: seq<Byte>, flags: Byte, i: nat, b: Byte)
    requires |payload| <= MAX_PAYLOAD && 12 + |payload| <= i < |Frame(messageType, payload, flags)|
    requires Frame(messageType, payload, flags)[i] != b
    ensures var g, n := Frame(messageType, payload, flags)[i := b], |payload|;
      !DigestMatches(g[..12], g[12..12 + n], g[12 + n..12 + n + 8])
  {
    var f, n := Frame(messageType, payload, flags), |payload|;
    var g := f[i := b];
    FrameParts(messageType, payload, flags);
    assert g[..12] == f[..12] && g[12..12 + n] == f[12..12 + n];
    var x, y := f[12 + n..12 + n + 8], g[12 + n..12 + n + 8];
    assert x[i - 12 - n] == f[i] && y[i - 12 - n] == b;
    Widths();
    UnLeOfLe(Fnv1a64(HeaderBytes(messageType, flags, n)[4..] + payload), 8);
    if UnLe(x) == UnLe(y) { UnLeInjective(x, y); }
  }

  // A changed byte of the span the digest covers, the length field included.
  lemma SpanDamage(messageType: Byte, payload: seq<Byte>, flags: Byte, i: nat, b: Byte)
    requires |payload| <= MAX_PAYLOAD && 4 <= i < 12 + |payload| && Frame(messageType, payload, flags)[i] != b
    ensures var g, n := Frame(messageType, payload, flags)[i := b], |payload|;
      !DigestMatches(g[..12], g[12..12 + n], g[12 + n..12 + n + 8])
  {
    var f, n, h := Frame(messageType, payload, flags), |payload|, HeaderBytes(messageType, flags, |payload|);
    FrameParts(messageType, payload, flags);
    Widths();
    UnLeOfLe(Fnv1a64(h[4..] + payload), 8);
    SpanOfUpdate(f, n, i, b);
    OneByteChangesDigest(f[4..12 + n], i - 4, b);
  }

  lemma MagicDamage(messageType: Byte, payload: seq<Byte>, flags: Byte, i: nat, b: Byte)
    requires i < 4 && Frame(messageType, payload, flags)[i] != b
    ensures ParseHeader(Frame(messageType, payload, flags)[i := b][..12]).Err?
  {
    var f := Frame(messageType, payload, flags);
    var x, y := f[..12][..4], f[i := b][..12][..4];
    FrameParts(messageType, payload, flags);
    HeaderParts(messageType, flags, |payload|);
    assert x[i] == f[i] && y[i] == b;
    Widths();
    UnLeOfLe(MAGIC, 4);
    if UnLe(x) == UnLe(y) { UnLeInjective(x, y); }
  }

  /** Altering one byte of a frame outside its length field makes the header or the digest check fail. */
  lemma OneByteCaught(messageType: Byte, payload: seq<Byte>, flags: Byte, i: nat, b: Byte)
    requires |payload| <= MAX_PAYLOAD && i < |Frame(messageType, payload, flags)| && !(8 <= i < 12)
    requires Frame(messageType, payload, flags)[i] != b
    ensures Receive(Frame(messageType, payload, flags)[i := b]).Err?
  {
    var f, n := Frame(messageType, payload, flags), |payload|;
    var g := f[i := b];
    LengthReads(messageType, payload, flags);
    if i < 4 {
      MagicDamage(messageType, payload, flags, i, b);
    } else {
      if i < 12 + n { SpanDamage(messageType, payload, flags, i, b); } else { DigestDamage(messageType, payload, flags, i, b); }
      LengthKept(f, i, b);
      MismatchCaught(g, n);
    }
  }

  lemma LengthReads(messageType: Byte, payload: seq<Byte>, flags: Byte)
    requires |payload| <= MAX_PAYLOAD
    ensures var f := Frame(messageType, payload, flags);
      |f| == 12 + |payload| + 8 && UnLe(f[..12][8..12]) == |payload|
  {
    FrameParts(messageType, payload, flags);
    HeaderParts(messageType, flags, |payload|);
    Widths();
    UnLeOfLe(|payload|, 4);
  }

  lemma LengthKept(f: seq<Byte>, i: nat, b: Byte)
    requires |f| >= 12 && i < |f| && !(8 <= i < 12)
    ensures f[i := b][..12][8..12] == f[..12][8..12]
  {}

  // A frame of the right length whose digest does not match is refused, whatever its header says.
  lemma MismatchCaught(g: seq<Byte>, n: nat)
    requires |g| == 12 + n + 8 && UnLe(g[..12][8..12]) == n
    requires !DigestMatches(g[..12], g[12..12 + n], g[12 + n..12 + n + 8])
    ensures Receive(g).Err?
  {}
}
