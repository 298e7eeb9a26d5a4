/** The bytes of a saved file and of a protocol frame, and what a reader answers to one that is out of order. */
module FileLayout {
  import opened Types
  import opened Coding
  import opened Digest
  import opened Wire
  import opened Records
  import opened CandidateRecords
  import opened Layout
  import opened SchedulerModel
  import Persistence
  import Frames

  // --- the snapshot ---------------------------------------------------------------------------

  function Counters(p: Persisted): seq<Byte> {
    W8s([p.epoch, p.authority, p.nextPlanId, p.nextSubmitOrdinal, p.nextEventOrdinal, p.ingestWatermark])
  }

  function BodyParts(p: Persisted): seq<seq<Byte>> {
    [Counters(p), Items32(RequestBytes, p.requests), Items32(PlanBytes, p.plans)]
  }

  // `order` is the order in which the cancelled requests are walked.
  function SnapshotParts(p: Persisted, order: seq<nat>): seq<seq<Byte>> {
    [Join(BodyParts(p)), Items32(IdentityBytes, p.candidateIdentities), Items32(Str32, p.supersessionHistory), Items32(W8, order)]
  }

  function SnapshotBytes(p: Persisted, order: seq<nat>): seq<Byte> {
    Join(SnapshotParts(p, order))
  }

  lemma RequestsLayout(rs: seq<SchedulingRequest>)
    ensures Enc(List(RequestSchema, true), Each(RequestValue, rs)) == Items32(RequestBytes, rs)
  {
    forall i | 0 <= i < |rs| ensures Enc(RequestSchema, RequestValue(rs[i])) == RequestBytes(rs[i]) { RequestLayout(rs[i]); }
    ListLayout(RequestSchema, true, RequestValue, RequestBytes, rs);
  }

  lemma PlansLayout(ps: seq<PlacementPlan>)
    ensures Enc(List(PlanSchema, true), Each(PlanValue, ps)) == Items32(PlanBytes, ps)
  {
    forall i | 0 <= i < |ps| ensures Enc(PlanSchema, PlanValue(ps[i])) == PlanBytes(ps[i]) { PlanLayout(ps[i]); }
    ListLayout(PlanSchema, true, PlanValue, PlanBytes, ps);
  }

  lemma IdentitiesLayout(cs: seq<CandidateIdentity>)
    ensures Enc(List(IdentitySchema, true), Each(IdentityValue, cs)) == Items32(IdentityBytes, cs)
  {
    forall i | 0 <= i < |cs| ensures Enc(IdentitySchema, IdentityValue(cs[i])) == IdentityBytes(cs[i]) { IdentityLayout(cs[i]); }
    ListLayout(IdentitySchema, true, IdentityValue, IdentityBytes, cs);
  }

  lemma LinesLayout(ts: seq<Text>)
    ensures Enc(List(Str, false), Each(Persistence.Line, ts)) == Items32(Str32, ts)
  {
    ListLayout(Str, false, Persistence.Line, Str32, ts);
  }

  lemma BodyLayout(p: Persisted)
    ensures Enc(Persistence.BodySchema, Persistence.BodyValue(p)) == Join(BodyParts(p))
  {
    WordsLayout(Persistence.CountersOf(p));
    RequestsLayout(p.requests);
    PlansLayout(p.plans);
    FieldsJoin(Persistence.BodyFields.fields, Persistence.BodyValue(p).items, BodyParts(p));
  }

  /** The bytes of a snapshot. */
  lemma SnapshotLayout(p: Persisted, order: seq<nat>)
    ensures Persistence.Payload(p, order) == SnapshotBytes(p, order)
  {
    BodyLayout(p);
    IdentitiesLayout(p.candidateIdentities);
    LinesLayout(p.supersessionHistory);
    NumbersLayout(8, U64_LIMIT - 1, false, W8, order);
    var vs, ps := Persistence.SnapshotValue(p, order).items, SnapshotParts(p, order);
    FourJoin(Persistence.BodySchema, List(IdentitySchema, true), List(Str, false), List(U64, false),
             vs[0], vs[1], vs[2], vs[3], ps[0], ps[1], ps[2], ps[3]);
  }

  // --- the saved file -------------------------------------------------------------------------

  // Magic "FB", version, flags, length, payload, digest.
  function FileBytes(magic: nat, version: nat, flags: Byte, length: nat, rest: seq<Byte>): seq<Byte> {
    Join([W4(magic), W4(version), [flags], W8(length), rest])
  }

  lemma FiveJoin(a: seq<Byte>, b: seq<Byte>, c: seq<Byte>, d: seq<Byte>, e: seq<Byte>)
    ensures Join([a, b, c, d, e]) == a + b + c + d + e
  {
    var ps := [a, b, c, d, e];
    assert ps[1..] == [b, c, d, e] && ps[1..][1..] == [c, d, e] && ps[1..][1..][1..] == [d, e];
    assert Join([e]) == e + [] == e;
    assert Join([d, e]) == d + Join([e]);
    assert Join([c, d, e]) == c + (d + e);
    assert Join([b, c, d, e]) == b + (c + (d + e));
  }

  /** A saved file: the snapshot's bytes behind a 17-byte header and in front of their digest. */
  lemma SaveLayout(p: Persisted, order: seq<nat>)
    ensures var payload := SnapshotBytes(p, order);
      Persistence.Save(p, order) == FileBytes(0x4642, p.formatVersion, 0, |payload|, payload + W8(Fnv1a64(payload)))
  {
    var payload := SnapshotBytes(p, order);
    SnapshotLayout(p, order);
    FiveJoin(W4(0x4642), W4(p.formatVersion), [0], W8(|payload|), payload + W8(Fnv1a64(payload)));
  }

  /** What the scheduler saves: its counters, and its requests, plans and candidate identities in ascending order of
      their ids. */
  lemma SavedStateLayout(s: Sched, order: seq<nat>)
    ensures SnapshotBytes(Snapshot(s), order) == Join([
      Join([W8s([s.epoch, s.authority, s.nextPlanId, s.nextSubmitOrdinal, s.nextEventOrdinal, s.ingestWatermark]),
            Items32(RequestBytes, InOrder(s.requests)), Items32(PlanBytes, InOrder(s.plans))]),
      Items32(IdentityBytes, Identities(InOrder(s.candidates))), Items32(Str32, s.supersessionHistory), Items32(W8, order)])
    ensures Snapshot(s).formatVersion == 1
  {}

  lemma FileRead(magic: nat, version: nat, flags: Byte, length: nat, rest: seq<Byte>)
    requires magic < U32_LIMIT && version < U32_LIMIT && length < U64_LIMIT
    ensures var f := FileBytes(magic, version, flags, length, rest);
      && |f| == 17 + |rest| && UnLe(f[..4]) == magic && UnLe(f[4..8]) == version && UnLe(f[9..17]) == length && f[17..] == rest
  {
    var f := FileBytes(magic, version, flags, length, rest);
    FiveJoin(W4(magic), W4(version), [flags], W8(length), rest);
    Widths();
    UnLeOfLe(magic, 4);
    UnLeOfLe(version, 4);
    UnLeOfLe(length, 8);
    assert f[..4] == W4(magic) && f[4..8] == W4(version) && f[9..17] == W8(length);
  }

  // The first thing wrong with a file, and the payload of one that is in order.
  predicate FileAnswer(magic: nat, version: nat, length: nat, rest: seq<Byte>, r: Result<seq<Byte>>) {
    if magic != 0x4642 then r == Err(Corruption)
    else if version != 1 then r == Err(UnsupportedVersion)
    else if length > 1024 * 1024 * 1024 then r == Err(OversizedFrame)
    else if |rest| < length + 8 then r == Err(Truncation)
    else if UnLe(rest[length..length + 8]) != Fnv1a64(rest[..length]) then r == Err(ChecksumMismatch)
    else r == Ok(rest[..length])
  }

  /** Opening a file of at least a header's size reports the first thing that is wrong, in the order magic, version,
      size bound, truncation, digest; a shorter one is truncated. */
  lemma OpenAnswers(magic: nat, version: nat, flags: Byte, length: nat, rest: seq<Byte>)
    requires magic < U32_LIMIT && version < U32_LIMIT && length < U64_LIMIT
    ensures FileAnswer(magic, version, length, rest, Persistence.Unwrap(FileBytes(magic, version, flags, length, rest)))
    ensures forall s :: |s| < 17 ==> Persistence.Unwrap(s) == Err(Truncation)
  {
    var f := FileBytes(magic, version, flags, length, rest);
    FileRead(magic, version, flags, length, rest);
    if |rest| >= length + 8 {
      assert f[17..17 + length] == rest[..length] && f[17 + length..17 + length + 8] == rest[length..length + 8];
    }
  }

  // --- the frame ------------------------------------------------------------------------------

  function FrameHead(messageType: Byte, flags: Byte, length: nat): seq<Byte> {
    [1, messageType, flags, 0] + W4(length)
  }

  /** A frame: magic "FABR", a header that ends in the payload length, the payload, and the digest of everything
      after the magic. */
  lemma FrameLayout(messageType: Byte, payload: seq<Byte>, flags: Byte)
    ensures var covered := FrameHead(messageType, flags, |payload|) + payload;
      Frames.Frame(messageType, payload, flags) == W4(0x4641_4252) + covered + W8(Fnv1a64(covered))
  {
    var body := Frames.HeaderBytes(messageType, flags, |payload|) + payload;
    assert body[4..] == FrameHead(messageType, flags, |payload|) + payload;
    assert body == W4(0x4641_4252) + (FrameHead(messageType, flags, |payload|) + payload);
  }

  predicate HeaderAnswer(magic: nat, version: Byte, messageType: Byte, flags: Byte, length: nat, r: Result<Frames.Header>) {
    if magic != 0x4641_4252 then r == Err(MalformedFrame)
    else if version != 1 then r == Err(UnsupportedVersion)
    else if messageType > 21 then r == Err(MalformedFrame)
    else if length > 16 * 1024 * 1024 then r == Err(OversizedFrame)
    else r.Ok? && r.value.messageType == messageType && r.value.flags == flags && r.value.payloadLen == length
  }

  /** Reading a frame header reports the first thing that is wrong, in the order magic, version, type, length. */
  lemma HeaderAnswers(magic: nat, version: Byte, messageType: Byte, flags: Byte, reserved: Byte, length: nat)
    requires magic < U32_LIMIT && length < U32_LIMIT
    ensures var h := W4(magic) + [version, messageType, flags, reserved] + W4(length);
      HeaderAnswer(magic, version, messageType, flags, length, Frames.ParseHeader(h))
  {
    var h := W4(magic) + [version, messageType, flags, reserved] + W4(length);
    Widths();
    UnLeOfLe(magic, 4);
    UnLeOfLe(length, 4);
    assert h[..4] == W4(magic) && h[8..12] == W4(length);
  }
}
