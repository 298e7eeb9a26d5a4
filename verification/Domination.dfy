/** Domination: evidence at least as good in every field costs no more and ranks no later. */
module Domination {
  import opened Types
  import opened Doubles
  import opened Ranking
  import opened Sequences

  /** a is at least as good as b in every evidence field the filter or the ranker reads, with the same
      provenance and topology generation.  A NaN reading is at least as good as nothing. */
  ghost predicate Dominates(a: Candidate, b: Candidate) {
    DominatesWith(a, Read(a), b, Read(b))
  }

  ghost predicate DominatesWith(a: Candidate, ra: Readings, b: Candidate, rb: Readings) {
    && LessEq(rb.healthScore, ra.healthScore)
    && LessEq(ra.congestion, rb.congestion)
    && LessEq(rb.residualBandwidth, ra.residualBandwidth)
    && LessEq(ra.estimatedCost, rb.estimatedCost)
    && LessEq(ra.derivedPathCost, rb.derivedPathCost)
    && LessEq(ra.collectiveCost, rb.collectiveCost)
    && a.capacity.vramAvailable >= b.capacity.vramAvailable
    && a.capacity.vramTotal >= b.capacity.vramTotal
    && a.capacity.hostMemoryAvailable >= b.capacity.hostMemoryAvailable
    && a.capacity.pinnedMemoryAvailable >= b.capacity.pinnedMemoryAvailable
    && a.capacity.cpuAvailable >= b.capacity.cpuAvailable
    && a.capacity.storageAvailable >= b.capacity.storageAvailable
    && a.capacity.nicBandwidthAvailable >= b.capacity.nicBandwidthAvailable
    && (b.capacity.contiguousMemory ==> a.capacity.contiguousMemory)
    && (b.health.ready ==> a.health.ready)
    && (a.reservation.protectedResource ==> b.reservation.protectedResource)
    && a.reservation.reservedBytes <= b.reservation.reservedBytes
    && a.locality.topologyGeneration == b.locality.topologyGeneration
    && a.locality.numaDistance <= b.locality.numaDistance
    && a.locality.pcieHops <= b.locality.pcieHops
    && (a.locality.sharesPcieRoot ==> b.locality.sharesPcieRoot)
    && a.locality.nicDistance <= b.locality.nicDistance
    && a.locality.storageDistance <= b.locality.storageDistance
    && (b.residency.modelResident ==> a.residency.modelResident)
    && (b.residency.adapterResident ==> a.residency.adapterResident)
    && (b.residency.stateLocal ==> a.residency.stateLocal)
    && a.residency.moveBytes <= b.residency.moveBytes
    && multiset(b.bindings) <= multiset(a.bindings)
    && SameProvenance(a, b)
  }

  predicate SameProvenance(a: Candidate, b: Candidate) {
    && a.capacity.provenance == b.capacity.provenance
    && a.health.provenance == b.health.provenance
    && a.reservation.provenance == b.reservation.provenance
    && a.congestion.provenance == b.congestion.provenance
    && a.locality.provenance == b.locality.provenance
    && a.communication.provenance == b.communication.provenance
    && a.residency.provenance == b.residency.provenance
  }

  predicate HopsInRange(c: Candidate) {
    c.locality.numaDistance + c.locality.pcieHops < U32_LIMIT
  }

  lemma DivMonotone(x: real, y: real, d: real, e: real)
    requires 0.0 <= x <= y && 0.0 < d <= e
    ensures x / e <= y / d
  {
    var q, p := y / d, x / e;
    assert q * d == y && p * e == x;
    assert q >= 0.0;
    ScaleMonotone(q, d, e);
    assert (q - p) * e >= 0.0;
  }

  lemma RatioMonotone(need: nat, more: nat, less: nat)
    requires more >= less
    ensures RatioOrOne(need, more) <= RatioOrOne(need, less)
  {
    if less > 0 { DivMonotone(need as real, need as real, less as real, more as real); }
  }

  lemma DominantCapacityCost(kind: RankFactorKind, d: DemandProfile, a: Candidate, ra: Readings, b: Candidate, rb: Readings)
    requires DominatesWith(a, ra, b, rb) && OrderIndex(kind) < 5
    ensures PlainCost(kind, d, a) <= PlainCost(kind, d, b)
  {
    RatioMonotone(RankedVram(d.accelerator), a.capacity.vramAvailable, b.capacity.vramAvailable);
    RatioMonotone(d.cpuRequired, a.capacity.cpuAvailable, b.capacity.cpuAvailable);
    RatioMonotone(d.memory.hostMemory, a.capacity.hostMemoryAvailable, b.capacity.hostMemoryAvailable);
    RatioMonotone(d.memory.pinnedMemory, a.capacity.pinnedMemoryAvailable, b.capacity.pinnedMemoryAvailable);
  }

  lemma DominantReservationCost(d: DemandProfile, a: Candidate, ra: Readings, b: Candidate, rb: Readings)
    requires DominatesWith(a, ra, b, rb)
    ensures PlainCost(ReservationFit, d, a) <= PlainCost(ReservationFit, d, b)
  {
    var ta := if a.capacity.vramTotal > 1 then a.capacity.vramTotal else 1;
    var tb := if b.capacity.vramTotal > 1 then b.capacity.vramTotal else 1;
    DivMonotone(a.reservation.reservedBytes as real, b.reservation.reservedBytes as real, tb as real, ta as real);
  }

  lemma DominantMovementCost(kind: RankFactorKind, d: DemandProfile, a: Candidate, ra: Readings, b: Candidate, rb: Readings)
    requires DominatesWith(a, ra, b, rb) && (kind == CheckpointMovementCost || kind == MigrationRecomputeCost)
    ensures PlainCost(kind, d, a) <= PlainCost(kind, d, b)
  {
    var n := if kind == CheckpointMovementCost && d.maximumMovementCost > 0 then d.maximumMovementCost else MOVE_NORMALIZER;
    DivMonotone(a.residency.moveBytes as real, b.residency.moveBytes as real, n as real, n as real);
  }

  lemma DominantPlaceCost(kind: RankFactorKind, d: DemandProfile, a: Candidate, ra: Readings, b: Candidate, rb: Readings)
    requires DominatesWith(a, ra, b, rb) && HopsInRange(a) && HopsInRange(b) && 5 <= OrderIndex(kind) < 10
    ensures PlainCost(kind, d, a) <= PlainCost(kind, d, b)
  {
    var x, y := a.locality, b.locality;
    NormMonotone(x.numaDistance + x.pcieHops, y.numaDistance + y.pcieHops, 8.0);
    NormMonotone(x.numaDistance, y.numaDistance, 4.0);
    NormMonotone(x.pcieHops, y.pcieHops, 8.0);
    NormMonotone(x.nicDistance, y.nicDistance, 4.0);
    NormMonotone(x.storageDistance, y.storageDistance, 4.0);
    ExactDistance(x);
    ExactDistance(y);
  }

  lemma NormMonotone(x: nat, y: nat, divisor: real)
    requires x <= y && divisor > 0.0
    ensures DistanceNorm(x, divisor) <= DistanceNorm(y, divisor)
  {
    DivMonotone(x as real, y as real, divisor, divisor);
  }

  lemma ExactDistance(l: LocalityEvidence)
    requires l.numaDistance + l.pcieHops < U32_LIMIT
    ensures TopologyDistance(l) == l.numaDistance + l.pcieHops
  {}

  lemma DominantStateCost(kind: RankFactorKind, d: DemandProfile, a: Candidate, ra: Readings, b: Candidate, rb: Readings)
    requires DominatesWith(a, ra, b, rb) && 10 <= OrderIndex(kind)
    requires kind != ReservationFit && kind != CheckpointMovementCost && kind != MigrationRecomputeCost
    ensures PlainCost(kind, d, a) <= PlainCost(kind, d, b)
  {}

  lemma DominantPlainCost(kind: RankFactorKind, d: DemandProfile, a: Candidate, ra: Readings, b: Candidate, rb: Readings)
    requires DominatesWith(a, ra, b, rb) && HopsInRange(a) && HopsInRange(b)
    ensures PlainCost(kind, d, a) <= PlainCost(kind, d, b)
  {
    if OrderIndex(kind) < 5 {
      DominantCapacityCost(kind, d, a, ra, b, rb);
    } else if kind == ReservationFit {
      DominantReservationCost(d, a, ra, b, rb);
    } else if kind == CheckpointMovementCost || kind == MigrationRecomputeCost {
      DominantMovementCost(kind, d, a, ra, b, rb);
    } else if OrderIndex(kind) < 10 {
      DominantPlaceCost(kind, d, a, ra, b, rb);
    } else {
      DominantStateCost(kind, d, a, ra, b, rb);
    }
  }

  lemma ClampMonotone(x: Extended, y: Extended)
    requires LessEq(x, y)
    ensures LessEq(Clamp(x), Clamp(y))
  {}

  lemma ComplementFalls(x: Extended, y: Extended)
    requires LessEq(x, y)
    ensures LessEq(Plus(Finite(1.0), Negate(y)), Plus(Finite(1.0), Negate(x)))
  {}

  lemma PathMonotone(ra: Readings, rb: Readings)
    requires LessEq(ra.estimatedCost, rb.estimatedCost) && LessEq(ra.derivedPathCost, rb.derivedPathCost)
    requires LessEq(ra.collectiveCost, rb.collectiveCost) && !PathCost(ra).NaN? && !PathCost(rb).NaN?
    ensures LessEq(PathCost(ra), PathCost(rb))
  {
    PlusMonotone(ra.estimatedCost, ra.derivedPathCost, rb.estimatedCost, rb.derivedPathCost);
    PlusMonotone(Plus(ra.estimatedCost, ra.derivedPathCost), ra.collectiveCost,
                 Plus(rb.estimatedCost, rb.derivedPathCost), rb.collectiveCost);
  }

  lemma DominantReading(d: DemandProfile, a: Candidate, ra: Readings, b: Candidate, rb: Readings)
    requires DominatesWith(a, ra, b, rb) && Defined(ra) && Defined(rb)
    ensures LessEq(PathCost(ra), PathCost(rb)) && LessEq(ra.congestion, rb.congestion)
    ensures LessEq(Plus(Finite(1.0), Negate(ra.residualBandwidth)), Plus(Finite(1.0), Negate(rb.residualBandwidth)))
    ensures LessEq(Plus(Finite(1.0), Negate(ra.healthScore)), Plus(Finite(1.0), Negate(rb.healthScore)))
    ensures LessEq(Scaled(0.5, ra.congestion), Scaled(0.5, rb.congestion))
  {
    PathMonotone(ra, rb);
    ComplementFalls(rb.residualBandwidth, ra.residualBandwidth);
    ComplementFalls(rb.healthScore, ra.healthScore);
  }

  lemma DominantFactorCost(kind: RankFactorKind, d: DemandProfile, a: Candidate, ra: Readings, b: Candidate, rb: Readings)
    requires DominatesWith(a, ra, b, rb) && HopsInRange(a) && HopsInRange(b) && Defined(ra) && Defined(rb)
    ensures LessEq(FactorCost(kind, d, a, ra), FactorCost(kind, d, b, rb))
  {
    DominantReading(d, a, ra, b, rb);
    DominantPlainCost(kind, d, a, ra, b, rb);
    match kind
    case CommunicationCost => ClampMonotone(PathCost(ra), PathCost(rb));
    case CongestionPenalty => ClampMonotone(ra.congestion, rb.congestion);
    case ResidualBandwidth =>
      ClampMonotone(Plus(Finite(1.0), Negate(ra.residualBandwidth)), Plus(Finite(1.0), Negate(rb.residualBandwidth)));
    case HealthMargin =>
      ClampMonotone(Plus(Finite(1.0), Negate(ra.healthScore)), Plus(Finite(1.0), Negate(rb.healthScore)));
    case EstimatedQueueing => ClampMonotone(Scaled(0.5, ra.congestion), Scaled(0.5, rb.congestion));
    case _ =>
  }

  // Same kind, weight and provenance, and no greater cost.
  predicate NoDearerFactor(f: Factor, g: Factor) {
    && f.kind == g.kind && f.weight == g.weight && f.provenance == g.provenance
    && f.weight >= 0.0 && f.value.Finite? && g.value.Finite? && f.value.value <= g.value.value
  }

  ghost predicate NoDearer(fs: seq<Factor>, gs: seq<Factor>) {
    |fs| == |gs| && forall i :: 0 <= i < |fs| ==> NoDearerFactor(fs[i], gs[i])
  }

  lemma {:induction false} CheaperScore(fs: seq<Factor>, gs: seq<Factor>)
    requires NoDearer(fs, gs)
    ensures Score(fs).Finite? && Score(gs).Finite? && Score(fs).value <= Score(gs).value
  {
    if fs != [] {
      var f, g := fs[|fs| - 1], gs[|gs| - 1];
      CheaperScore(fs[..|fs| - 1], gs[..|gs| - 1]);
      ScaleMonotone(f.weight, f.value.value, g.value.value);
    }
  }

  lemma {:induction false} CheaperGroup(g: Group, fs: seq<Factor>, gs: seq<Factor>)
    requires NoDearer(fs, gs)
    ensures GroupCost(g, fs).Finite? && GroupCost(g, gs).Finite? && GroupCost(g, fs).value <= GroupCost(g, gs).value
  {
    if fs != [] { CheaperGroup(g, fs[..|fs| - 1], gs[..|gs| - 1]); }
  }

  lemma {:induction false} SameUnknown(fs: seq<Factor>, gs: seq<Factor>)
    requires NoDearer(fs, gs)
    ensures UnknownCount(fs) == UnknownCount(gs)
  {
    if fs != [] { SameUnknown(fs[..|fs| - 1], gs[..|gs| - 1]); }
  }

  lemma DominantFactor(kind: RankFactorKind, d: DemandProfile, a: Candidate, b: Candidate, w: Weights)
    requires NonNegative(w) && Dominates(a, b) && HopsInRange(a) && HopsInRange(b) && Scorable(a) && Scorable(b)
    requires FactorCost(kind, d, a, Read(a)).Finite? && FactorCost(kind, d, b, Read(b)).Finite?
    ensures NoDearerFactor(FactorOf(kind, d, a, Read(a), w), FactorOf(kind, d, b, Read(b), w))
  {
    DominantFactorCost(kind, d, a, Read(a), b, Read(b));
    SameProvenanceOf(BasisOf(kind), a, b);
  }

  lemma FactorIsNumber(d: DemandProfile, c: Candidate, w: Weights, i: nat)
    requires i < FACTOR_COUNT && Scorable(c)
    ensures |Rank(d, c, w).factors| == FACTOR_COUNT
    ensures Rank(d, c, w).factors[i] == FactorOf(FACTOR_ORDER[i], d, c, Read(c), w) && Rank(d, c, w).factors[i].value.Finite?
  {
    RankFactors(d, c, w);
  }

  lemma DominantFactors(d: DemandProfile, a: Candidate, b: Candidate, w: Weights)
    requires NonNegative(w) && Dominates(a, b) && HopsInRange(a) && HopsInRange(b) && Scorable(a) && Scorable(b)
    ensures NoDearer(Rank(d, a, w).factors, Rank(d, b, w).factors)
  {
    var fs, gs := Rank(d, a, w).factors, Rank(d, b, w).factors;
    FactorIsNumber(d, a, w, 0);
    FactorIsNumber(d, b, w, 0);
    forall i: nat | i < FACTOR_COUNT ensures NoDearerFactor(fs[i], gs[i]) {
      FactorIsNumber(d, a, w, i);
      FactorIsNumber(d, b, w, i);
      DominantFactor(FACTOR_ORDER[i], d, a, b, w);
    }
  }

  lemma SameProvenanceOf(basis: Basis, a: Candidate, b: Candidate)
    requires SameProvenance(a, b)
    ensures BasisProvenance(basis, a) == BasisProvenance(basis, b)
  {}

  lemma {:induction false} MoreBindings(more: seq<DeviceBinding>, fewer: seq<DeviceBinding>)
    requires multiset(fewer) <= multiset(more)
    ensures LocalBindings(fewer) <= LocalBindings(more)
    decreases |fewer|
  {
    if fewer != [] {
      var front, x := fewer[..|fewer| - 1], fewer[|fewer| - 1];
      assert fewer == front + [x];
      assert x in multiset(fewer);
      assert x in multiset(more);
      var i :| 0 <= i < |more| && more[i] == x;
      var without := more[..i] + more[i + 1..];
      RemoveOne(more, i, front, x);
      MoreBindings(without, front);
      RemoveBinding(more, i);
    }
  }

  lemma {:induction false} RemoveBinding(bs: seq<DeviceBinding>, i: nat)
    requires i < |bs|
    ensures LocalBindings(bs) == LocalBindings(bs[..i] + bs[i + 1..]) + if bs[i].memoryDomainId != 0 then 1 else 0
  {
    var n := |bs| - 1;
    var without := bs[..i] + bs[i + 1..];
    if i == n {
      assert without == bs[..n];
    } else {
      RemoveBinding(bs[..n], i);
      assert without[..n - 1] == bs[..n][..i] + bs[..n][i + 1..];
      assert without[n - 1] == bs[n];
    }
  }

  /** Domination decides the order: the dominating candidate never scores worse, and with a smaller id it always
      comes first. */
  lemma DominantRanksFirst(d: DemandProfile, a: Candidate, b: Candidate, w: Weights)
    requires NonNegative(w) && Dominates(a, b) && HopsInRange(a) && HopsInRange(b) && Scorable(a) && Scorable(b)
    ensures LessEq(Rank(d, a, w).score, Rank(d, b, w).score)
    ensures a.candidateId < b.candidateId ==> Before(Rank(d, a, w), Rank(d, b, w))
  {
    DominantFactors(d, a, b, w);
    CheaperScore(Rank(d, a, w).factors, Rank(d, b, w).factors);
    CheaperGroup(Movement, Rank(d, a, w).factors, Rank(d, b, w).factors);
    CheaperGroup(Headroom, Rank(d, a, w).factors, Rank(d, b, w).factors);
    SameUnknown(Rank(d, a, w).factors, Rank(d, b, w).factors);
    StrengthNeverDecides(d, a, w);
    StrengthNeverDecides(d, b, w);
    MoreBindings(a.bindings, b.bindings);
    ClampMonotone(Read(a).congestion, Read(b).congestion);
  }
}
