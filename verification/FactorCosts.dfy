/** What each factor costs, stated on the numbers of a demand and a candidate: quotients capped at 1, constants,
    and clamped readings.  And strictness: strictly better evidence in a factor that has weight wins. */
module FactorCosts {
  import opened Types
  import opened Doubles
  import opened Eligibility
  import opened Ranking
  import opened Domination
  import opened Selection

  function CostOf(kind: RankFactorKind, d: DemandProfile, c: Candidate): Extended {
    FactorCost(kind, d, c, Read(c))
  }

  // --- quotients ------------------------------------------------------------------------------

  /** x is num / den, capped at 1; a zero denominator costs 1. */
  predicate Capped(x: Extended, num: nat, den: nat) {
    x.Finite? && if num < den then x.value * den as real == num as real else x.value == 1.0
  }

  // x is at least that.
  predicate CappedBelow(x: Extended, num: nat, den: nat) {
    x.Finite? && if num < den then x.value * den as real >= num as real else x.value >= 1.0
  }

  lemma QuotientCapped(num: nat, den: nat)
    requires den > 0
    ensures Capped(Finite(Clamp01(num as real / den as real)), num, den)
  {
    var q := num as real / den as real;
    assert q * den as real == num as real;
    if num < den {
      if q >= 1.0 { ScaleMonotone(den as real, 1.0, q); }
      if q < 0.0 { ScaleMonotone(den as real, q, 0.0); }
    } else if q < 1.0 {
      ScaleMonotone(den as real, q, 1.0);
      assert (1.0 - q) * den as real > 0.0;
    }
  }

  lemma RatioCapped(need: nat, avail: nat)
    ensures Capped(Finite(RatioOrOne(need, avail)), need, avail)
  {
    if avail > 0 { QuotientCapped(need, avail); }
  }

  // The VRAM that a demand asks for, in the 64 bits of the ranker.
  function NeededVram(a: AcceleratorRequirement): nat {
    if a.aggregateVram > 0 then a.aggregateVram else a.vramPerDevice * a.minimumCount % U64_LIMIT
  }

  /** Capacity factors cost what is needed over what is available; the headroom factor costs the larger of the CPU
      and the host-memory quotient. */
  lemma CapacityCosts(d: DemandProfile, c: Candidate)
    ensures var need, avail := NeededVram(d.accelerator), c.capacity.vramAvailable;
      Capped(CostOf(AcceleratorFit, d, c), need, avail) && Capped(CostOf(VramHeadroom, d, c), need, avail)
    ensures Capped(CostOf(CpuHeadroom, d, c), d.cpuRequired, c.capacity.cpuAvailable)
    ensures Capped(CostOf(PinnedMemoryHeadroom, d, c), d.memory.pinnedMemory, c.capacity.pinnedMemoryAvailable)
    ensures var x := CostOf(ResourceHeadroom, d, c);
      && CappedBelow(x, d.cpuRequired, c.capacity.cpuAvailable)
      && CappedBelow(x, d.memory.hostMemory, c.capacity.hostMemoryAvailable)
      && (Capped(x, d.cpuRequired, c.capacity.cpuAvailable) || Capped(x, d.memory.hostMemory, c.capacity.hostMemoryAvailable))
  {
    RatioCapped(NeededVram(d.accelerator), c.capacity.vramAvailable);
    RatioCapped(d.cpuRequired, c.capacity.cpuAvailable);
    RatioCapped(d.memory.pinnedMemory, c.capacity.pinnedMemoryAvailable);
    RatioCapped(d.memory.hostMemory, c.capacity.hostMemoryAvailable);
    var x, y := RatioOrOne(d.cpuRequired, c.capacity.cpuAvailable), RatioOrOne(d.memory.hostMemory, c.capacity.hostMemoryAvailable);
    LargerCapped(x, y, d.cpuRequired, c.capacity.cpuAvailable);
    LargerCapped(y, x, d.memory.hostMemory, c.capacity.hostMemoryAvailable);
  }

  lemma LargerCapped(x: real, y: real, num: nat, den: nat)
    requires Capped(Finite(x), num, den)
    ensures CappedBelow(Finite(Max(x, y)), num, den) && CappedBelow(Finite(Max(y, x)), num, den)
  {
    ScaleMonotone(den as real, x, Max(x, y));
  }

  lemma NormCapped(n: nat, divisor: nat)
    requires divisor > 0
    ensures Capped(Finite(DistanceNorm(n, divisor as real)), n, divisor)
  {
    QuotientCapped(n, divisor);
  }

  // A shared root adds more/8 to a distance in eighths.
  lemma SharedCapped(n: nat, more: nat)
    requires more == 2 || more == 4
    ensures Capped(Finite(Clamp01(DistanceNorm(n, 8.0) + more as real / 8.0)), n + more, 8)
  {
    NormCapped(n, 8);
  }

  lemma PlainDistanceCosts(d: DemandProfile, c: Candidate)
    ensures Capped(CostOf(NumaLocality, d, c), c.locality.numaDistance, 4)
    ensures Capped(CostOf(NicLocality, d, c), c.locality.nicDistance, 4)
    ensures Capped(CostOf(StorageLocality, d, c), c.locality.storageDistance, 4)
  {
    NormCapped(c.locality.numaDistance, 4);
    NormCapped(c.locality.nicDistance, 4);
    NormCapped(c.locality.storageDistance, 4);
  }

  lemma PcieCosts(d: DemandProfile, c: Candidate)
    ensures Capped(CostOf(PcieLocality, d, c), c.locality.pcieHops + if c.locality.sharesPcieRoot then 4 else 0, 8)
  {
    NormCapped(c.locality.pcieHops, 8);
    SharedCapped(c.locality.pcieHops, 4);
  }

  lemma TopologyCosts(d: DemandProfile, c: Candidate)
    requires HopsInRange(c)
    ensures var l := c.locality;
      Capped(CostOf(TopologyLocality, d, c), l.numaDistance + l.pcieHops + if l.sharesPcieRoot then 2 else 0, 8)
  {
    ExactDistance(c.locality);
    NormCapped(TopologyDistance(c.locality), 8);
    SharedCapped(TopologyDistance(c.locality), 2);
  }

  /** Distances cost their quotient by 4 for NUMA, NIC and storage and by 8 for PCIe and the whole topology, where a
      shared PCIe root counts as 4 and 2 more hops. */
  lemma DistanceCosts(d: DemandProfile, c: Candidate)
    ensures var l := c.locality;
      && Capped(CostOf(NumaLocality, d, c), l.numaDistance, 4)
      && Capped(CostOf(NicLocality, d, c), l.nicDistance, 4) && Capped(CostOf(StorageLocality, d, c), l.storageDistance, 4)
      && Capped(CostOf(PcieLocality, d, c), l.pcieHops + if l.sharesPcieRoot then 4 else 0, 8)
      && (HopsInRange(c) ==>
            Capped(CostOf(TopologyLocality, d, c), l.numaDistance + l.pcieHops + if l.sharesPcieRoot then 2 else 0, 8))
  {
    PlainDistanceCosts(d, c);
    PcieCosts(d, c);
    if HopsInRange(c) { TopologyCosts(d, c); }
  }

  const EIGHT_GIB: nat := 8 * 1024 * 1024 * 1024

  /** Movement costs its quotient by the demand's own bound, or by 8 GiB; reservation pressure is the reserved part
      of the VRAM. */
  lemma MovementCosts(d: DemandProfile, c: Candidate)
    ensures var bytes := c.residency.moveBytes;
      && Capped(CostOf(CheckpointMovementCost, d, c), bytes, if d.maximumMovementCost > 0 then d.maximumMovementCost else EIGHT_GIB)
      && Capped(CostOf(MigrationRecomputeCost, d, c), bytes, EIGHT_GIB)
    ensures Capped(CostOf(ReservationFit, d, c), c.reservation.reservedBytes, if c.capacity.vramTotal > 0 then c.capacity.vramTotal else 1)
  {
    QuotientCapped(c.residency.moveBytes, if d.maximumMovementCost > 0 then d.maximumMovementCost else EIGHT_GIB);
    QuotientCapped(c.residency.moveBytes, EIGHT_GIB);
    QuotientCapped(c.reservation.reservedBytes, if c.capacity.vramTotal > 1 then c.capacity.vramTotal else 1);
  }

  // --- constants ------------------------------------------------------------------------------

  // The cost of something that is absent and may have to be moved.
  predicate AbsenceCost(x: Extended, present: bool, bytes: nat) {
    && (present ==> x == Finite(0.0)) && (!present && bytes > 0 ==> x == Finite(1.0))
    && (!present && bytes == 0 ==> x == Finite(0.5))
  }

  lemma ResidencyCosts(d: DemandProfile, c: Candidate)
    ensures AbsenceCost(CostOf(ModelResidency, d, c), c.residency.modelResident, c.residency.moveBytes)
    ensures AbsenceCost(CostOf(AdapterResidency, d, c), c.residency.adapterResident, c.residency.moveBytes)
  {}

  predicate IsUniform(kind: RankFactorKind) {
    || kind == FailureDomainDiversification || kind == EnergyPower || kind == FragmentationImpact || kind == ExternalPriority
    || kind == PolicyPreference
  }

  lemma UniformCosts(kind: RankFactorKind, d: DemandProfile, c: Candidate)
    requires IsUniform(kind)
    ensures CostOf(kind, d, c) == Finite(0.0)
  {}

  /** Residency costs 0 when present, 1 when it has to be moved and a half otherwise; local state costs 0 and
      remote state 1; starting up costs a tenth when anything moves; five factors cost nothing. */
  lemma ConstantCosts(d: DemandProfile, c: Candidate)
    ensures AbsenceCost(CostOf(ModelResidency, d, c), c.residency.modelResident, c.residency.moveBytes)
    ensures AbsenceCost(CostOf(AdapterResidency, d, c), c.residency.adapterResident, c.residency.moveBytes)
    ensures CostOf(ReusableStateLocality, d, c) == Finite(if c.residency.stateLocal then 0.0 else 1.0)
    ensures CostOf(StartupCost, d, c) == Finite(if c.residency.moveBytes == 0 then 0.0 else 0.1)
    ensures forall kind :: IsUniform(kind) ==> CostOf(kind, d, c) == Finite(0.0)
  {
    ResidencyCosts(d, c);
    forall kind | IsUniform(kind) ensures CostOf(kind, d, c) == Finite(0.0) { UniformCosts(kind, d, c); }
  }

  // --- readings -------------------------------------------------------------------------------

  /** x is the reading v brought into [0, 1]; NaN stays NaN. */
  predicate Within(x: Extended, v: Extended) {
    match v
    case Finite(r) => x.Finite? && x.value == if r <= 0.0 then 0.0 else if r >= 1.0 then 1.0 else r
    case PosInf => x == Finite(1.0)
    case NegInf => x == Finite(0.0)
    case NaN => x.NaN?
  }

  lemma ClampWithin(v: Extended)
    ensures Within(Clamp(v), v)
  {}

  // 1 - v
  function Complement(v: Extended): Extended {
    match v case Finite(r) => Finite(1.0 - r) case PosInf => NegInf case NegInf => PosInf case NaN => NaN
  }

  // v / 2
  function Half(v: Extended): Extended {
    match v case Finite(r) => Finite(r / 2.0) case _ => v
  }

  lemma CongestionCosts(d: DemandProfile, c: Candidate, r: Readings)
    ensures Within(FactorCost(CongestionPenalty, d, c, r), r.congestion)
    ensures Within(FactorCost(EstimatedQueueing, d, c, r), Half(r.congestion))
  {
    ClampWithin(r.congestion);
    ClampWithin(Half(r.congestion));
  }

  lemma LackCosts(d: DemandProfile, c: Candidate, r: Readings)
    ensures Within(FactorCost(ResidualBandwidth, d, c, r), Complement(r.residualBandwidth))
    ensures Within(FactorCost(HealthMargin, d, c, r), Complement(r.healthScore))
  {
    ClampWithin(Complement(r.residualBandwidth));
    ClampWithin(Complement(r.healthScore));
  }

  lemma PathCosts(d: DemandProfile, c: Candidate, r: Readings)
    ensures var x, y, z := r.estimatedCost, r.derivedPathCost, r.collectiveCost;
      && Within(FactorCost(CommunicationCost, d, c, r), Plus(Plus(x, y), z))
      && (x.Finite? && y.Finite? && z.Finite? ==>
            Within(FactorCost(CommunicationCost, d, c, r), Finite(x.value + y.value + z.value)))
  {
    ClampWithin(PathCost(r));
  }

  /** Congestion costs itself, and half of itself for queueing; bandwidth and health cost what they lack of 1; the
      three communication costs are added up. */
  lemma ReadingCosts(d: DemandProfile, c: Candidate)
    ensures var r := Read(c);
      && r.congestion == Decode(c.congestion.congestion) && r.residualBandwidth == Decode(c.congestion.residualBandwidth)
      && r.healthScore == Decode(c.health.healthScore) && r.estimatedCost == Decode(c.communication.estimatedCost)
      && r.derivedPathCost == Decode(c.communication.derivedPathCost)
      && r.collectiveCost == Decode(c.communication.collectiveCost)
    ensures var r := Read(c);
      && Within(CostOf(CongestionPenalty, d, c), r.congestion) && Within(CostOf(EstimatedQueueing, d, c), Half(r.congestion))
      && Within(CostOf(ResidualBandwidth, d, c), Complement(r.residualBandwidth))
      && Within(CostOf(HealthMargin, d, c), Complement(r.healthScore))
    ensures var x, y, z := Read(c).estimatedCost, Read(c).derivedPathCost, Read(c).collectiveCost;
      && Within(CostOf(CommunicationCost, d, c), Plus(Plus(x, y), z))
      && (x.Finite? && y.Finite? && z.Finite? ==> Within(CostOf(CommunicationCost, d, c), Finite(x.value + y.value + z.value)))
  {
    CongestionCosts(d, c, Read(c));
    LackCosts(d, c, Read(c));
    PathCosts(d, c, Read(c));
  }

  // --- strictly better evidence ---------------------------------------------------------------

  /** n/d is below m/e once both are capped at 1. */
  predicate SmallerFraction(n: nat, d: nat, m: nat, e: nat) {
    n < d && (m < e ==> n * e < m * d)
  }

  lemma SmallerCosts(x: Extended, n: nat, d: nat, y: Extended, m: nat, e: nat)
    requires Capped(x, n, d) && Capped(y, m, e)
    ensures x.value < y.value <==> SmallerFraction(n, d, m, e)
  {
    if n < d && m < e {
      CrossMultiply(x.value, n, d, y.value, m, e);
    } else if n < d {
      BelowOne(x.value, n, d);
    } else if m < e {
      BelowOne(y.value, m, e);
    }
  }

  lemma BelowOne(x: real, n: nat, d: nat)
    requires x * d as real == n as real && n < d
    ensures x < 1.0
  {
    if x >= 1.0 { ScaleMonotone(d as real, 1.0, x); }
  }

  lemma CrossMultiply(x: real, n: nat, d: nat, y: real, m: nat, e: nat)
    requires x * d as real == n as real && y * e as real == m as real && d > 0 && e > 0
    ensures x < y <==> n * e < m * d
  {
    var p := d as real * e as real;
    assert p > 0.0;
    assert x * p == n as real * e as real == (n * e) as real;
    assert y * p == m as real * d as real == (m * d) as real;
    if x < y { assert (y - x) * p > 0.0; } else { ScaleMonotone(p, y, x); }
  }

  /** v is below w once both are brought into [0, 1]. */
  predicate SmallerReading(v: Extended, w: Extended) {
    Less(v, w) && Less(v, Finite(1.0)) && Less(Finite(0.0), w)
  }

  // 0 when present, 1 when absent with nothing to move, 2 when it has to be moved.
  function Absence(present: bool, bytes: nat): nat {
    if present then 0 else if bytes == 0 then 1 else 2
  }

  predicate NearerThan(x: LocalityEvidence, y: LocalityEvidence) {
    SmallerFraction(x.numaDistance + x.pcieHops + if x.sharesPcieRoot then 2 else 0, 8,
                    y.numaDistance + y.pcieHops + if y.sharesPcieRoot then 2 else 0, 8)
  }

  predicate FewerHops(x: LocalityEvidence, y: LocalityEvidence) {
    SmallerFraction(x.pcieHops + if x.sharesPcieRoot then 4 else 0, 8, y.pcieHops + if y.sharesPcieRoot then 4 else 0, 8)
  }

  /** a has more room than b for what the factor of that kind looks at. */
  predicate Roomier(kind: RankFactorKind, d: DemandProfile, x: CapacityEvidence, y: CapacityEvidence) {
    var vram := NeededVram(d.accelerator);
    match kind
    case AcceleratorFit | VramHeadroom => SmallerFraction(vram, x.vramAvailable, vram, y.vramAvailable)
    case CpuHeadroom => SmallerFraction(d.cpuRequired, x.cpuAvailable, d.cpuRequired, y.cpuAvailable)
    case PinnedMemoryHeadroom =>
      SmallerFraction(d.memory.pinnedMemory, x.pinnedMemoryAvailable, d.memory.pinnedMemory, y.pinnedMemoryAvailable)
    case ResourceHeadroom =>
      && SmallerFraction(d.cpuRequired, x.cpuAvailable, d.cpuRequired, y.cpuAvailable)
      && SmallerFraction(d.memory.hostMemory, x.hostMemoryAvailable, d.memory.hostMemory, y.hostMemoryAvailable)
    case _ => false
  }

  /** Or is nearer. */
  predicate Nearer(kind: RankFactorKind, x: LocalityEvidence, y: LocalityEvidence) {
    match kind
    case TopologyLocality => NearerThan(x, y)
    case NumaLocality => SmallerFraction(x.numaDistance, 4, y.numaDistance, 4)
    case PcieLocality => FewerHops(x, y)
    case NicLocality => SmallerFraction(x.nicDistance, 4, y.nicDistance, 4)
    case StorageLocality => SmallerFraction(x.storageDistance, 4, y.storageDistance, 4)
    case _ => false
  }

  /** Or has less to move, or less of it reserved. */
  predicate Lighter(kind: RankFactorKind, d: DemandProfile, a: Candidate, b: Candidate) {
    var x, y := a.residency, b.residency;
    var bound := if d.maximumMovementCost > 0 then d.maximumMovementCost else EIGHT_GIB;
    match kind
    case ModelResidency => Absence(x.modelResident, x.moveBytes) < Absence(y.modelResident, y.moveBytes)
    case AdapterResidency => Absence(x.adapterResident, x.moveBytes) < Absence(y.adapterResident, y.moveBytes)
    case ReusableStateLocality => x.stateLocal && !y.stateLocal
    case CheckpointMovementCost => SmallerFraction(x.moveBytes, bound, y.moveBytes, bound)
    case StartupCost => x.moveBytes == 0 < y.moveBytes
    case MigrationRecomputeCost => SmallerFraction(x.moveBytes, EIGHT_GIB, y.moveBytes, EIGHT_GIB)
    case ReservationFit =>
      SmallerFraction(a.reservation.reservedBytes, if a.capacity.vramTotal > 0 then a.capacity.vramTotal else 1,
                      b.reservation.reservedBytes, if b.capacity.vramTotal > 0 then b.capacity.vramTotal else 1)
    case _ => false
  }

  /** Or reads better. */
  predicate ReadsBetter(kind: RankFactorKind, x: Readings, y: Readings) {
    match kind
    case CommunicationCost =>
      SmallerReading(Plus(Plus(x.estimatedCost, x.derivedPathCost), x.collectiveCost),
                     Plus(Plus(y.estimatedCost, y.derivedPathCost), y.collectiveCost))
    case CongestionPenalty => SmallerReading(x.congestion, y.congestion)
    case EstimatedQueueing => SmallerReading(Half(x.congestion), Half(y.congestion))
    case ResidualBandwidth => SmallerReading(Complement(x.residualBandwidth), Complement(y.residualBandwidth))
    case HealthMargin => SmallerReading(Complement(x.healthScore), Complement(y.healthScore))
    case _ => false
  }

  predicate StrictlyBetter(kind: RankFactorKind, d: DemandProfile, a: Candidate, b: Candidate) {
    || Roomier(kind, d, a.capacity, b.capacity) || Nearer(kind, a.locality, b.locality)
    || Lighter(kind, d, a, b) || ReadsBetter(kind, Read(a), Read(b))
  }

  predicate CostsLess(x: Extended, y: Extended) {
    x.Finite? && y.Finite? && x.value < y.value
  }

  lemma RoomierCosts(kind: RankFactorKind, d: DemandProfile, a: Candidate, b: Candidate)
    requires Roomier(kind, d, a.capacity, b.capacity)
    ensures CostsLess(CostOf(kind, d, a), CostOf(kind, d, b))
  {
    var x, y, vram := a.capacity, b.capacity, NeededVram(d.accelerator);
    CapacityCosts(d, a);
    CapacityCosts(d, b);
    match kind
    case AcceleratorFit | VramHeadroom =>
      SmallerCosts(CostOf(kind, d, a), vram, x.vramAvailable, CostOf(kind, d, b), vram, y.vramAvailable);
    case CpuHeadroom =>
      SmallerCosts(CostOf(kind, d, a), d.cpuRequired, x.cpuAvailable, CostOf(kind, d, b), d.cpuRequired, y.cpuAvailable);
    case PinnedMemoryHeadroom =>
      SmallerCosts(CostOf(kind, d, a), d.memory.pinnedMemory, x.pinnedMemoryAvailable,
                   CostOf(kind, d, b), d.memory.pinnedMemory, y.pinnedMemoryAvailable);
    case ResourceHeadroom => RoomierOverall(d, a, b);
  }

  lemma RoomierOverall(d: DemandProfile, a: Candidate, b: Candidate)
    requires Roomier(ResourceHeadroom, d, a.capacity, b.capacity)
    ensures CostsLess(CostOf(ResourceHeadroom, d, a), CostOf(ResourceHeadroom, d, b))
  {
    var x, y := a.capacity, b.capacity;
    RatioShrinks(d.cpuRequired, x.cpuAvailable, y.cpuAvailable);
    RatioShrinks(d.memory.hostMemory, x.hostMemoryAvailable, y.hostMemoryAvailable);
  }

  lemma RatioShrinks(need: nat, more: nat, less: nat)
    requires SmallerFraction(need, more, need, less)
    ensures RatioOrOne(need, more) < RatioOrOne(need, less)
  {
    RatioCapped(need, more);
    RatioCapped(need, less);
    SmallerCosts(Finite(RatioOrOne(need, more)), need, more, Finite(RatioOrOne(need, less)), need, less);
  }

  lemma NearerCosts(kind: RankFactorKind, d: DemandProfile, a: Candidate, b: Candidate)
    requires Nearer(kind, a.locality, b.locality) && HopsInRange(a) && HopsInRange(b)
    ensures CostsLess(CostOf(kind, d, a), CostOf(kind, d, b))
  {
    var x, y, p, q := a.locality, b.locality, CostOf(kind, d, a), CostOf(kind, d, b);
    DistanceCosts(d, a);
    DistanceCosts(d, b);
    match kind
    case TopologyLocality =>
      SmallerCosts(p, x.numaDistance + x.pcieHops + if x.sharesPcieRoot then 2 else 0, 8,
                   q, y.numaDistance + y.pcieHops + if y.sharesPcieRoot then 2 else 0, 8);
    case NumaLocality => SmallerCosts(p, x.numaDistance, 4, q, y.numaDistance, 4);
    case PcieLocality =>
      SmallerCosts(p, x.pcieHops + if x.sharesPcieRoot then 4 else 0, 8, q, y.pcieHops + if y.sharesPcieRoot then 4 else 0, 8);
    case NicLocality => SmallerCosts(p, x.nicDistance, 4, q, y.nicDistance, 4);
    case StorageLocality => SmallerCosts(p, x.storageDistance, 4, q, y.storageDistance, 4);
  }

  lemma LighterCosts(kind: RankFactorKind, d: DemandProfile, a: Candidate, b: Candidate)
    requires Lighter(kind, d, a, b)
    ensures CostsLess(CostOf(kind, d, a), CostOf(kind, d, b))
  {
    var x, y, p, q := a.residency.moveBytes, b.residency.moveBytes, CostOf(kind, d, a), CostOf(kind, d, b);
    var bound := if d.maximumMovementCost > 0 then d.maximumMovementCost else EIGHT_GIB;
    ConstantCosts(d, a);
    ConstantCosts(d, b);
    MovementCosts(d, a);
    MovementCosts(d, b);
    match kind
    case CheckpointMovementCost => SmallerCosts(p, x, bound, q, y, bound);
    case MigrationRecomputeCost => SmallerCosts(p, x, EIGHT_GIB, q, y, EIGHT_GIB);
    case ReservationFit =>
      SmallerCosts(p, a.reservation.reservedBytes, if a.capacity.vramTotal > 0 then a.capacity.vramTotal else 1,
                   q, b.reservation.reservedBytes, if b.capacity.vramTotal > 0 then b.capacity.vramTotal else 1);
    case _ =>
  }

  lemma BetterReadingCosts(kind: RankFactorKind, d: DemandProfile, a: Candidate, ra: Readings, b: Candidate, rb: Readings)
    requires ReadsBetter(kind, ra, rb)
    ensures CostsLess(FactorCost(kind, d, a, ra), FactorCost(kind, d, b, rb))
  {
    CongestionCosts(d, a, ra);
    CongestionCosts(d, b, rb);
    LackCosts(d, a, ra);
    LackCosts(d, b, rb);
    PathCosts(d, a, ra);
    PathCosts(d, b, rb);
  }

  /** Strictly better evidence in a factor costs strictly less there. */
  lemma BetterCostsLess(kind: RankFactorKind, d: DemandProfile, a: Candidate, b: Candidate)
    requires StrictlyBetter(kind, d, a, b) && HopsInRange(a) && HopsInRange(b)
    ensures CostsLess(CostOf(kind, d, a), CostOf(kind, d, b))
  {
    if Roomier(kind, d, a.capacity, b.capacity) { RoomierCosts(kind, d, a, b); }
    else if Nearer(kind, a.locality, b.locality) { NearerCosts(kind, d, a, b); }
    else if Lighter(kind, d, a, b) { LighterCosts(kind, d, a, b); }
    else { BetterReadingCosts(kind, d, a, Read(a), b, Read(b)); }
  }

  lemma {:induction false} ScoreOf(fs: seq<Factor>)
    requires fs != [] && Score(fs[..|fs| - 1]).Finite? && fs[|fs| - 1].value.Finite?
    ensures var f := fs[|fs| - 1]; Score(fs) == Finite(Score(fs[..|fs| - 1]).value + f.weight * f.value.value)
  {}

  lemma LastIsCheaper(f: Factor, g: Factor)
    requires NoDearerFactor(f, g)
    ensures f.weight * f.value.value <= g.weight * g.value.value
    ensures f.weight > 0.0 && f.value.value < g.value.value ==> f.weight * f.value.value < g.weight * g.value.value
  {
    ScaleMonotone(f.weight, f.value.value, g.value.value);
    if f.weight > 0.0 && f.value.value < g.value.value { StrictScale(f.weight, f.value.value, g.value.value); }
  }

  lemma {:induction false} StrictScore(fs: seq<Factor>, gs: seq<Factor>, i: nat)
    requires NoDearer(fs, gs) && i < |fs| && fs[i].weight > 0.0 && fs[i].value.value < gs[i].value.value
    ensures Score(fs).Finite? && Score(gs).Finite? && Score(fs).value < Score(gs).value
  {
    var n := |fs| - 1;
    CheaperScore(fs[..n], gs[..n]);
    LastIsCheaper(fs[n], gs[n]);
    ScoreOf(fs);
    ScoreOf(gs);
    var p, q := fs[n].weight * fs[n].value.value, gs[n].weight * gs[n].value.value;
    assert p <= q;
    assert Score(fs) == Finite(Score(fs[..n]).value + p);
    assert Score(gs) == Finite(Score(gs[..n]).value + q);
    if i < n {
      StrictScore(fs[..n], gs[..n], i);
      assert Score(fs[..n]).value < Score(gs[..n]).value;
    } else {
      assert i == n;
      assert p < q;
    }
  }

  lemma StrictScale(w: real, x: real, y: real)
    requires w > 0.0 && x < y
    ensures w * x < w * y
  {
    assert w * (y - x) > 0.0;
  }

  /** A candidate that is nowhere worse and strictly better in a factor that has weight scores strictly less, and so
      precedes the other whatever their ids are. */
  lemma StrictlyBetterPrecedes(kind: RankFactorKind, d: DemandProfile, w: Weights, a: Candidate, b: Candidate)
    requires NonNegative(w) && Dominates(a, b) && HopsInRange(a) && HopsInRange(b) && Scorable(a) && Scorable(b)
    requires Weight(w, kind) > 0.0 && StrictlyBetter(kind, d, a, b)
    ensures CostsLess(Rank(d, a, w).score, Rank(d, b, w).score) && Precedes(d, w, a, b)
  {
    var i := OrderIndex(kind);
    DominantFactors(d, a, b, w);
    FactorIsNumber(d, a, w, i);
    FactorIsNumber(d, b, w, i);
    BetterCostsLess(kind, d, a, b);
    StrictScore(Rank(d, a, w).factors, Rank(d, b, w).factors, i);
  }

  /** Through filter, rank and sort, such a candidate keeps the other from being selected: while the survivors are
      comparable, whatever the ids. */
  lemma StrictlyBetterWins(kind: RankFactorKind, d: DemandProfile, w: Weights, snapshot: seq<Candidate>, gates: Candidate -> Gates, a: Candidate, b: Candidate)
    requires NonNegative(w) && DistinctIds(snapshot) && a in snapshot && b in snapshot
    requires Dominates(a, b) && HopsInRange(a) && HopsInRange(b) && AtLeastAsOpen(gates(a), gates(b))
    requires Weight(w, kind) > 0.0 && StrictlyBetter(kind, d, a, b) && Comparable(Survivors(d, snapshot, gates))
    ensures var ranked := Decide(d, w, snapshot, gates).eligible;
      && (b in ranked ==> a in ranked && Precedes(d, w, a, b))
      && (ranked != [] ==> ranked[0] != b)
  {
    var ranked := Decide(d, w, snapshot, gates).eligible;
    DecisionPartitions(d, w, snapshot, gates);
    BetterCostsLess(kind, d, a, b);
    if b in ranked {
      DominantEligible(d, a, gates(a), b, gates(b));
      BothScorable(d, snapshot, gates, a, b);
      StrictlyBetterPrecedes(kind, d, w, a, b);
      if ranked[0] == b { DominatorLeads(d, w, snapshot, gates, a, b); }
    }
  }
}
