/** The public record codecs, as the worker protocol uses them, and what a record sent through them still
    decides. */
module Transport {
  import opened Types
  import opened Demand
  import opened Eligibility
  import opened Ranking
  import opened Coding
  import opened Wire
  import opened Records
  import opened CandidateRecords
  import opened Layout
  import opened InRange
  import opened System
  import opened SnapshotChecks

  // --- the codecs -----------------------------------------------------------------------------

  function DecodeRequest(s: seq<Byte>): Parse<SchedulingRequest> {
    match Dec(RequestSchema, s) case Err(e) => Err(e) case Ok((v, rest)) => Ok((RequestOf(v), rest))
  }

  function DecodeCandidate(s: seq<Byte>): Parse<Candidate> {
    match Dec(CandidateSchema, s) case Err(e) => Err(e) case Ok((v, rest)) => Ok((CandidateOf(v), rest))
  }

  function DecodePlan(s: seq<Byte>): Parse<PlacementPlan> {
    match Dec(PlanSchema, s) case Err(e) => Err(e) case Ok((v, rest)) => Ok((PlanOf(v), rest))
  }

  method EncodeRequestRecord(w: ByteWriter, r: SchedulingRequest)
    modifies w
    ensures w.buf == old(w.buf) + RequestBytes(r)
  {
    RequestLayout(r);
    Write(w, RequestSchema, RequestValue(r));
  }

  method EncodeCandidateRecord(w: ByteWriter, c: Candidate)
    modifies w
    ensures w.buf == old(w.buf) + CandidateBytes(c)
  {
    CandidateLayout(c);
    Write(w, CandidateSchema, CandidateValue(c));
  }

  method EncodePlanRecord(w: ByteWriter, p: PlacementPlan)
    modifies w
    ensures w.buf == old(w.buf) + PlanBytes(p)
  {
    PlanLayout(p);
    Write(w, PlanSchema, PlanValue(p));
  }

  method DecodeRequestRecord(r: ByteReader) returns (res: Result<SchedulingRequest>)
    requires r.Valid()
    modifies r
    ensures r.Valid()
    ensures match DecodeRequest(old(r.Rest()))
      case Ok(p) => res == Ok(p.0) && r.Rest() == p.1
      case Err(e) => res == Err(e)
  {
    var v := Wire.Read(r, RequestSchema);
    res := if v.Err? then Err(v.error) else Ok(RequestOf(v.value));
  }

  method DecodeCandidateRecord(r: ByteReader) returns (res: Result<Candidate>)
    requires r.Valid()
    modifies r
    ensures r.Valid()
    ensures match DecodeCandidate(old(r.Rest()))
      case Ok(p) => res == Ok(p.0) && r.Rest() == p.1
      case Err(e) => res == Err(e)
  {
    var v := Wire.Read(r, CandidateSchema);
    res := if v.Err? then Err(v.error) else Ok(CandidateOf(v.value));
  }

  method DecodePlanRecord(r: ByteReader) returns (res: Result<PlacementPlan>)
    requires r.Valid()
    modifies r
    ensures r.Valid()
    ensures match DecodePlan(old(r.Rest()))
      case Ok(p) => res == Ok(p.0) && r.Rest() == p.1
      case Err(e) => res == Err(e)
  {
    var v := Wire.Read(r, PlanSchema);
    res := if v.Err? then Err(v.error) else Ok(PlanOf(v.value));
  }

  // --- round trips ----------------------------------------------------------------------------

  /** A request within the bounds is decoded, with whatever follows it untouched, exactly when its demand is
      valid; all it loses is the required topology generation. */
  lemma RequestTransports(r: SchedulingRequest, rest: seq<Byte>)
    requires RequestInRange(r)
    ensures var d := DecodeRequest(RequestBytes(r) + rest);
      if DemandError(r.demand).None? then d == Ok((Sent(r), rest)) else d.Err?
  {
    GoodRequest(r);
    RequestLayout(r);
    RoundTrip(RequestSchema, RequestValue(r), rest);
    RequestIntegrity(r);
    RequestReads(r);
  }

  /** A plan within the bounds is decoded whole exactly when its factor costs are finite. */
  lemma PlanTransports(p: PlacementPlan, rest: seq<Byte>)
    requires PlanInRange(p)
    ensures var d := DecodePlan(PlanBytes(p) + rest);
      if FiniteFactors(p.selectedFactors) then d == Ok((p, rest)) else d.Err?
  {
    GoodPlan(p);
    PlanLayout(p);
    RoundTrip(PlanSchema, PlanValue(p), rest);
    PlanIntegrity(p);
    PlanReads(p);
  }

  lemma EvidenceUnchecked()
    ensures Unchecked(CandidateSchema.fields[3]) && Unchecked(CandidateSchema.fields[4])
  {
    assert Unchecked(U64) && Unchecked(U32) && Unchecked(Code(6)) && Unchecked(Words(6));
    assert Unchecked(CapacityEvidenceSchema) && Unchecked(HealthSchema) && Unchecked(ReservationSchema);
    assert Unchecked(CongestionSchema) && Unchecked(LocalitySchema) && Unchecked(CommunicationSchema);
    assert Unchecked(ResidencyEvidenceSchema);
  }

  lemma CandidateFieldPasses(i: nat, v: Value)
    requires i < 7 && Shaped(CandidateSchema.fields[i], v)
    ensures Passes(Integrity, CandidateSchema.fields[i], v)
  {
    EvidenceUnchecked();
    PlainHead();
    assert Unchecked(U64) && Unchecked(Code(6)) && Unchecked(Words(6));
    UncheckedPasses(CandidateSchema.fields[i], v);
  }

  lemma CandidatePasses(v: Value)
    requires Shaped(CandidateSchema, v)
    ensures Passes(Integrity, CandidateSchema, v)
  {
    var fs := CandidateSchema.fields;
    forall i | 0 <= i < |fs| ensures Passes(Integrity, fs[i], v.items[i]) { CandidateFieldPasses(i, v.items[i]); }
  }

  /** A candidate within the bounds is always decoded whole. */
  lemma CandidateTransports(c: Candidate, rest: seq<Byte>)
    requires CandidateInRange(c)
    ensures DecodeCandidate(CandidateBytes(c) + rest) == Ok((c, rest))
  {
    GoodCandidate(c);
    CandidatePasses(CandidateValue(c));
    CandidateLayout(c);
    RoundTrip(CandidateSchema, CandidateValue(c), rest);
    CandidateReads(c);
  }

  // --- what the lost field can change ---------------------------------------------------------

  predicate WrongTopology(d: DemandProfile, c: Candidate) {
    d.requiredTopologyGeneration != 0 && c.locality.topologyGeneration != d.requiredTopologyGeneration
  }

  /** After transport the filter can only be weaker, and only by the topology test: the verdict changes exactly
      when that test rejected. */
  lemma TransportWeakensTopologyOnly(d: DemandProfile, c: Candidate, g: Gates)
    ensures Filter(d, c, g) == Eligible ==> Filter(Untargeted(d), c, g) == Eligible
    ensures Filter(Untargeted(d), c, g) != Filter(d, c, g) <==> Filter(d, c, g) == RejectTopology
    ensures Filter(d, c, g) == RejectTopology ==> WrongTopology(d, c)
  {}

  lemma {:induction false} FactorsIgnoreTarget(ks: seq<RankFactorKind>, d: DemandProfile, c: Candidate, r: Readings, w: Weights)
    ensures Factors(ks, Untargeted(d), c, r, w) == Factors(ks, d, c, r, w)
  {
    if ks != [] { FactorsIgnoreTarget(ks[..|ks| - 1], d, c, r, w); }
  }

  /** The rank of a candidate is the same before and after transport. */
  lemma TransportKeepsRank(d: DemandProfile, c: Candidate, w: Weights)
    ensures Rank(Untargeted(d), c, w) == Rank(d, c, w)
  {
    FactorsIgnoreTarget(FACTOR_ORDER, d, c, Ranking.Read(c), w);
  }

  lemma NothingAfter(s: seq<Byte>)
    ensures s + [] == s
  {}

  lemma RequestAlone(r: SchedulingRequest)
    requires RequestInRange(r) && DemandError(r.demand).None?
    ensures DecodeRequest(RequestBytes(r)) == Ok((Sent(r), []))
  {
    RequestTransports(r, []);
    NothingAfter(RequestBytes(r));
  }

  lemma CandidateAlone(c: Candidate)
    requires CandidateInRange(c)
    ensures DecodeCandidate(CandidateBytes(c)) == Ok((c, []))
  {
    CandidateTransports(c, []);
    NothingAfter(CandidateBytes(c));
  }

  /** The verdict and the rank on a decoded pair. */
  predicate DecidesAlike(r: SchedulingRequest, c: Candidate, q: SchedulingRequest, x: Candidate, g: Gates, w: Weights) {
    && (Filter(r.demand, c, g) == Eligible ==> Filter(q.demand, x, g) == Eligible)
    && (Filter(q.demand, x, g) != Filter(r.demand, c, g) <==> Filter(r.demand, c, g) == RejectTopology)
    && Rank(q.demand, x, w) == Rank(r.demand, c, w)
  }

  lemma SentDecides(r: SchedulingRequest, c: Candidate, g: Gates, w: Weights)
    ensures DecidesAlike(r, c, Sent(r), c, g, w)
  {
    TransportWeakensTopologyOnly(r.demand, c, g);
    TransportKeepsRank(r.demand, c, w);
  }

  /** End to end: a valid request and a candidate, each sent through its codec, are decoded to a pair that ranks
      the same and is eligible whenever the original pair was. */
  lemma TransportedDecision(r: SchedulingRequest, c: Candidate, g: Gates, w: Weights)
    requires RequestInRange(r)
    requires CandidateInRange(c)
    requires DemandError(r.demand).None?
    ensures DecodeRequest(RequestBytes(r)).Ok? && DecodeCandidate(CandidateBytes(c)).Ok?
    ensures DecidesAlike(r, c, DecodeRequest(RequestBytes(r)).value.0, DecodeCandidate(CandidateBytes(c)).value.0, g, w)
  {
    RequestAlone(r);
    CandidateAlone(c);
    SentDecides(r, c, g, w);
  }
}
