/** The saved file: a header, the snapshot as one record, and a digest of the record. */
module Persistence {
  import opened Types
  import opened Lifecycle
  import opened Coding
  import opened Wire
  import opened Records
  import opened CandidateRecords
  import opened Digest

  const MAGIC: nat := 0x4642
  const VERSION: nat := 1
  const MAX_PAYLOAD: nat := 0x4000_0000
  const HEADER_SIZE: nat := 17

  // --- the snapshot record --------------------------------------------------------------------

  function EpochRule(v: Value): Option<ErrorCode> {
    if N(v, 0) == 0 then Some(Corruption) else None
  }

  predicate PlanIdsBelow(next: nat, plans: seq<PlacementPlan>) {
    next > 0 && forall i :: 0 <= i < |plans| ==> plans[i].planId < next
  }

  function PlanIdRule(v: Value): Option<ErrorCode> {
    if PlanIdsBelow(N(At(v, 0), 2), EachOf(PlanOf, At(v, 2))) then None else Some(Corruption)
  }

  predicate Lists(ids: seq<CandidateIdentity>, candidate: nat) {
    exists i :: 0 <= i < |ids| && ids[i].candidateId == candidate
  }

  predicate CrossRecordsOk(plans: seq<PlacementPlan>, ids: seq<CandidateIdentity>) {
    forall i :: 0 <= i < |plans| ==>
      Lists(ids, plans[i].selectedCandidate) && (NeedsEvidence(plans[i].state) ==> plans[i].hasCommitmentEvidence)
  }

  function CrossRule(v: Value): Option<ErrorCode> {
    if CrossRecordsOk(EachOf(PlanOf, At(At(v, 0), 2)), EachOf(IdentityOf, At(v, 1))) then None else Some(Corruption)
  }

  const HeadSchema: Schema := Checked(Words(6), EpochRule)

  const BodyFields: Schema := Record([HeadSchema, List(RequestSchema, true), List(PlanSchema, true)])

  const BodySchema: Schema := Checked(BodyFields, PlanIdRule)

  const SnapshotFields: Schema := Record([BodySchema, List(IdentitySchema, true), List(Str, false), List(U64, false)])

  const SnapshotSchema: Schema := Checked(SnapshotFields, CrossRule)

  function CountersOf(p: Persisted): seq<nat> {
    [p.epoch, p.authority, p.nextPlanId, p.nextSubmitOrdinal, p.nextEventOrdinal, p.ingestWatermark]
  }

  function BodyValue(p: Persisted): Value {
    Tuple([Nums(CountersOf(p)), Each(RequestValue, p.requests), Each(PlanValue, p.plans)])
  }

  function Line(t: Text): Value {
    Chars(t)
  }

  function LineOf(v: Value): Text {
    if v.Chars? then v.text else []
  }

  // `order` is the order in which the unordered set of cancelled requests happens to be walked.
  function SnapshotValue(p: Persisted, order: seq<nat>): Value {
    Tuple([BodyValue(p), Each(IdentityValue, p.candidateIdentities), Each(Line, p.supersessionHistory), Nums(order)])
  }

  function SnapshotOf(v: Value, version: nat): Persisted {
    var body := At(v, 0);
    var head := At(body, 0);
    Persisted(version, N(head, 0), N(head, 1), N(head, 2), N(head, 3), N(head, 4), N(head, 5),
              EachOf(RequestOf, At(body, 1)), EachOf(PlanOf, At(body, 2)), EachOf(IdentityOf, At(v, 1)),
              EachOf(LineOf, At(v, 2)), set id | id in NumsOf(At(v, 3)))
  }

  // --- the file -------------------------------------------------------------------------------

  function FileHeader(version: nat, length: nat): seq<Byte> {
    Le(MAGIC, 4) + Le(version, 4) + [0] + Le(length, 8)
  }

  function FileOf(version: nat, payload: seq<Byte>): seq<Byte> {
    FileHeader(version, |payload|) + payload + Le(Fnv1a64(payload), 8)
  }

  function Payload(p: Persisted, order: seq<nat>): seq<Byte> {
    Enc(SnapshotSchema, SnapshotValue(p, order))
  }

  function Save(p: Persisted, order: seq<nat>): seq<Byte> {
    FileOf(p.formatVersion, Payload(p, order))
  }

  // The payload of a file whose header and digest are in order.
  function Unwrap(s: seq<Byte>): Result<seq<Byte>> {
    if |s| < HEADER_SIZE then Err(Truncation)
    else if UnLe(s[..4]) != MAGIC then Err(Corruption)
    else if UnLe(s[4..8]) == 0 || UnLe(s[4..8]) > VERSION then Err(UnsupportedVersion)
    else
      var length := UnLe(s[9..17]);
      if length > MAX_PAYLOAD then Err(OversizedFrame)
      else if |s| < HEADER_SIZE + length + 8 then Err(Truncation)
      else
        var payload := s[17..17 + length];
        if UnLe(s[17 + length..17 + length + 8]) != Fnv1a64(payload) then Err(ChecksumMismatch) else Ok(payload)
  }

  function ParseSnapshot(payload: seq<Byte>): Result<Value> {
    match Dec(SnapshotSchema, payload)
    case Err(e) => Err(e)
    case Ok((v, rest)) => if rest != [] then Err(Corruption) else Ok(v)
  }

  function Load(s: seq<Byte>): Result<Persisted> {
    match Unwrap(s)
    case Err(e) => Err(e)
    case Ok(payload) =>
      match ParseSnapshot(payload)
      case Err(e) => Err(e)
      case Ok(v) => Ok(SnapshotOf(v, UnLe(s[4..8])))
  }

  method PersistSave(p: Persisted, order: seq<nat>) returns (out: seq<Byte>)
    ensures out == Save(p, order)
  {
    var payload := EncodePayload(p, order);
    var sum := ComputeDigest(payload);
    var head := WriteHeader(p.formatVersion, |payload|);
    var foot := new ByteWriter();
    foot.PutWord(sum, 8);
    out := head + payload + foot.buf;
  }

  method EncodePayload(p: Persisted, order: seq<nat>) returns (payload: seq<Byte>)
    ensures payload == Payload(p, order)
  {
    var v := SnapshotValue(p, order);
    var pw := new ByteWriter();
    Write(pw, SnapshotSchema, v);
    payload := pw.buf;
  }

  method WriteHeader(version: nat, length: nat) returns (header: seq<Byte>)
    ensures header == FileHeader(version, length)
  {
    var w := new ByteWriter();
    w.PutWord(MAGIC, 4);
    w.PutWord(version, 4);
    w.PutByte(0);
    w.PutWord(length, 8);
    header := w.buf;
  }

  method PersistLoad(s: seq<Byte>) returns (r: Result<Persisted>)
    ensures r == Load(s)
  {
    var payload, version := OpenFile(s);
    if payload.Err? { return Err(payload.error); }
    var v := ReadSnapshot(payload.value);
    if v.Err? { return Err(v.error); }
    return Ok(SnapshotOf(v.value, version));
  }

  method OpenFile(s: seq<Byte>) returns (r: Result<seq<Byte>>, version: nat)
    ensures r == Unwrap(s)
    ensures r.Ok? ==> version == UnLe(s[4..8])
  {
    if |s| < HEADER_SIZE { return Err(Truncation), 0; }
    var magic, ver, payLen := ReadHeader(s);
    version := ver;
    if magic != MAGIC { return Err(Corruption), version; }
    if version == 0 || version > VERSION { return Err(UnsupportedVersion), version; }
    if payLen > MAX_PAYLOAD { return Err(OversizedFrame), version; }
    if |s| - HEADER_SIZE < payLen { return Err(Truncation), version; }
    var payload := s[17..17 + payLen];
    if |s| - HEADER_SIZE - payLen < 8 { return Err(Truncation), version; }
    var stored := ReadFooter(s[17 + payLen..17 + payLen + 8]);
    var computed := ComputeDigest(payload);
    if stored != computed { return Err(ChecksumMismatch), version; }
    return Ok(payload), version;
  }

  method ReadFooter(foot: seq<Byte>) returns (stored: nat)
    requires |foot| == 8
    ensures stored == UnLe(foot)
  {
    var fr := new ByteReader(foot);
    var w := fr.NextWord(8);
    assert foot[0..8] == foot;
    stored := w.value;
  }

  method ReadSnapshot(payload: seq<Byte>) returns (r: Result<Value>)
    ensures r == ParseSnapshot(payload)
  {
    var body := new ByteReader(payload);
    var v := Read(body, SnapshotSchema);
    if v.Err? { return Err(v.error); }
    var left := body.Remaining();
    if left != 0 { return Err(Corruption); }
    return v;
  }

  method ReadHeader(s: seq<Byte>) returns (magic: nat, version: nat, payLen: nat)
    requires |s| >= HEADER_SIZE
    ensures magic == UnLe(s[..4]) && version == UnLe(s[4..8]) && payLen == UnLe(s[9..17])
  {
    var header := s[..17];
    var hr := new ByteReader(header);
    var m := hr.NextWord(4);
    var ver := hr.NextWord(4);
    var flags := hr.ReadByte();
    var len := hr.NextWord(8);
    assert header[0..4] == s[..4] && header[4..8] == s[4..8] && header[9..17] == s[9..17];
    magic, version, payLen := m.value, ver.value, len.value;
  }
}
