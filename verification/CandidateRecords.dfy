/** The candidate record of the worker protocol, and the six ids of it that a saved snapshot keeps. */
module CandidateRecords {
  import opened Types
  import opened Codes
  import opened Wire
  import opened Records

  // --- evidence -------------------------------------------------------------------------------

  const CapacityEvidenceSchema: Schema := Record([Words(6), U32, U64, U64, Flag, Code(6)])

  function CapacityEvidenceValue(c: CapacityEvidence): Value {
    Tuple([Nums([c.generation, c.vramTotal, c.vramUsed, c.vramAvailable, c.hostMemoryAvailable, c.pinnedMemoryAvailable]),
           Num(c.cpuAvailable), Num(c.storageAvailable), Num(c.nicBandwidthAvailable), Bit(c.contiguousMemory),
           Num(ProvenanceCode(c.provenance))])
  }

  function CapacityEvidenceOf(v: Value): CapacityEvidence {
    var x := At(v, 0);
    CapacityEvidence(N(x, 0), N(x, 1), N(x, 2), N(x, 3), N(x, 4), N(x, 5), N(v, 1), N(v, 2), N(v, 3), B(v, 4),
                     ProvenanceOf(N(v, 5)))
  }

  const HealthSchema: Schema := Record([U64, Flag, U64, Str, Code(6)])

  function HealthValue(h: HealthEvidence): Value {
    Tuple([Num(h.generation), Bit(h.ready), Num(h.healthScore), Chars(h.degradationReason), Num(ProvenanceCode(h.provenance))])
  }

  function HealthOf(v: Value): HealthEvidence {
    HealthEvidence(N(v, 0), B(v, 1), N(v, 2), T(v, 3), ProvenanceOf(N(v, 4)))
  }

  const ReservationSchema: Schema := Record([U64, Flag, U64, Str, Code(6)])

  function ReservationValue(r: ReservationEvidence): Value {
    Tuple([Num(r.generation), Bit(r.protectedResource), Num(r.reservedBytes), Chars(r.reservationId),
           Num(ProvenanceCode(r.provenance))])
  }

  function ReservationOf(v: Value): ReservationEvidence {
    ReservationEvidence(N(v, 0), B(v, 1), N(v, 2), T(v, 3), ProvenanceOf(N(v, 4)))
  }

  const CongestionSchema: Schema := Record([U64, U64, U64, U64, Str, Code(6)])

  function CongestionValue(c: CongestionEvidence): Value {
    Tuple([Num(c.generation), Num(c.congestion), Num(c.residualBandwidth), Num(c.bandwidthNominal), Chars(c.bottleneck),
           Num(ProvenanceCode(c.provenance))])
  }

  function CongestionOf(v: Value): CongestionEvidence {
    CongestionEvidence(N(v, 0), N(v, 1), N(v, 2), N(v, 3), T(v, 4), ProvenanceOf(N(v, 5)))
  }

  const LocalitySchema: Schema := Record([U64, U32, U32, Flag, U32, U32, Str, Code(6)])

  function LocalityValue(l: LocalityEvidence): Value {
    Tuple([Num(l.topologyGeneration), Num(l.numaDistance), Num(l.pcieHops), Bit(l.sharesPcieRoot), Num(l.nicDistance),
           Num(l.storageDistance), Chars(l.topologyGroup), Num(ProvenanceCode(l.provenance))])
  }

  function LocalityOf(v: Value): LocalityEvidence {
    LocalityEvidence(N(v, 0), N(v, 1), N(v, 2), B(v, 3), N(v, 4), N(v, 5), T(v, 6), ProvenanceOf(N(v, 7)))
  }

  const CommunicationSchema: Schema := Record([U64, U64, U64, U64, Flag, Str, Code(6)])

  function CommunicationValue(c: CommunicationEvidence): Value {
    Tuple([Num(c.planGeneration), Num(c.estimatedCost), Num(c.derivedPathCost), Num(c.collectiveCost),
           Bit(c.pathFeasible), Chars(c.planId), Num(ProvenanceCode(c.provenance))])
  }

  function CommunicationOf(v: Value): CommunicationEvidence {
    CommunicationEvidence(N(v, 0), N(v, 1), N(v, 2), N(v, 3), B(v, 4), T(v, 5), ProvenanceOf(N(v, 6)))
  }

  const ResidencyEvidenceSchema: Schema := Record([U64, Flag, Flag, Flag, U64, Str, Code(6)])

  function ResidencyEvidenceValue(r: ResidencyEvidence): Value {
    Tuple([Num(r.residencyGeneration), Bit(r.modelResident), Bit(r.adapterResident), Bit(r.stateLocal),
           Num(r.moveBytes), Chars(r.moveSource), Num(ProvenanceCode(r.provenance))])
  }

  function ResidencyEvidenceOf(v: Value): ResidencyEvidence {
    ResidencyEvidence(N(v, 0), B(v, 1), B(v, 2), B(v, 3), N(v, 4), T(v, 5), ProvenanceOf(N(v, 6)))
  }

  lemma CapacityReads(c: CapacityEvidence)
    ensures CapacityEvidenceOf(CapacityEvidenceValue(c)) == c
  {
    var xs := [c.generation, c.vramTotal, c.vramUsed, c.vramAvailable, c.hostMemoryAvailable, c.pinnedMemoryAvailable];
    NumsRead(xs);
  }

  lemma StateReads(h: HealthEvidence, r: ReservationEvidence, g: CongestionEvidence)
    ensures HealthOf(HealthValue(h)) == h && ReservationOf(ReservationValue(r)) == r && CongestionOf(CongestionValue(g)) == g
  {}

  lemma PlaceReads(l: LocalityEvidence, m: CommunicationEvidence, s: ResidencyEvidence)
    ensures LocalityOf(LocalityValue(l)) == l && CommunicationOf(CommunicationValue(m)) == m
    ensures ResidencyEvidenceOf(ResidencyEvidenceValue(s)) == s
  {}

  // --- the candidate --------------------------------------------------------------------------

  const CandidateSchema: Schema := Record([
    Words(6), Code(6), List(BindingSchema, false),
    Record([CapacityEvidenceSchema, HealthSchema, ReservationSchema, CongestionSchema]),
    Record([LocalitySchema, CommunicationSchema, ResidencyEvidenceSchema]), U64, U64])

  function CandidateIds(c: Candidate): seq<nat> {
    [c.candidateId, c.candidateGeneration, c.sourceId, c.sourceBootId, c.workerId, c.workerBootId]
  }

  function CandidateValue(c: Candidate): Value {
    Tuple([Nums(CandidateIds(c)), Num(ProvenanceCode(c.provenance)), Each(BindingValue, c.bindings),
           Tuple([CapacityEvidenceValue(c.capacity), HealthValue(c.health), ReservationValue(c.reservation),
                  CongestionValue(c.congestion)]),
           Tuple([LocalityValue(c.locality), CommunicationValue(c.communication), ResidencyEvidenceValue(c.residency)]),
           Num(c.policyGeneration), Num(c.memoryMovementCost)])
  }

  function CandidateOf(v: Value): Candidate {
    var x, state, place := At(v, 0), At(v, 3), At(v, 4);
    Candidate(N(x, 0), N(x, 1), N(x, 2), N(x, 3), N(x, 4), N(x, 5), ProvenanceOf(N(v, 1)), EachOf(BindingOf, At(v, 2)),
              CapacityEvidenceOf(At(state, 0)), HealthOf(At(state, 1)), ReservationOf(At(state, 2)),
              CongestionOf(At(state, 3)), LocalityOf(At(place, 0)), CommunicationOf(At(place, 1)),
              ResidencyEvidenceOf(At(place, 2)), N(v, 5), N(v, 6))
  }

  lemma CandidateParts(c: Candidate)
    ensures var v := CandidateValue(c);
      && At(v, 0) == Nums(CandidateIds(c)) && N(v, 1) == ProvenanceCode(c.provenance)
      && At(v, 2) == Each(BindingValue, c.bindings) && N(v, 5) == c.policyGeneration && N(v, 6) == c.memoryMovementCost
      && At(At(v, 3), 0) == CapacityEvidenceValue(c.capacity) && At(At(v, 3), 1) == HealthValue(c.health)
      && At(At(v, 3), 2) == ReservationValue(c.reservation) && At(At(v, 3), 3) == CongestionValue(c.congestion)
      && At(At(v, 4), 0) == LocalityValue(c.locality) && At(At(v, 4), 1) == CommunicationValue(c.communication)
      && At(At(v, 4), 2) == ResidencyEvidenceValue(c.residency)
  {}

  /** A candidate survives whole. */
  lemma CandidateReads(c: Candidate)
    requires Shaped(CandidateSchema, CandidateValue(c))
    ensures CandidateOf(CandidateValue(c)) == c
  {
    assert Shaped(CandidateSchema.fields[2], CandidateValue(c).items[2]);
    BindingsRead(c.bindings);
    NumsRead(CandidateIds(c));
    CapacityReads(c.capacity);
    StateReads(c.health, c.reservation, c.congestion);
    PlaceReads(c.locality, c.communication, c.residency);
    CandidateParts(c);
  }

  // --- the identity ---------------------------------------------------------------------------

  const IdentitySchema: Schema := Record([U64, U64, U64, U64, U64, U64])

  function IdentityValue(c: CandidateIdentity): Value {
    Tuple([Num(c.candidateId), Num(c.candidateGeneration), Num(c.sourceId), Num(c.sourceBootId), Num(c.workerId),
           Num(c.workerBootId)])
  }

  function IdentityOf(v: Value): CandidateIdentity {
    CandidateIdentity(N(v, 0), N(v, 1), N(v, 2), N(v, 3), N(v, 4), N(v, 5))
  }

  lemma IdentityReads(c: CandidateIdentity)
    ensures IdentityOf(IdentityValue(c)) == c
  {}
}
