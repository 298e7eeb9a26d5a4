/** The 27-factor cost of an eligible candidate and the comparator that orders the results.  Costs are real
    numbers or NaN: the double arithmetic of the source without its rounding. */
module Ranking {
  import opened Types
  import opened Doubles
  import opened Demand

  const FACTOR_COUNT: nat := 27

  const FACTOR_ORDER: seq<RankFactorKind> := [
    AcceleratorFit, ResourceHeadroom, VramHeadroom, CpuHeadroom, PinnedMemoryHeadroom,
    TopologyLocality, NumaLocality, PcieLocality, NicLocality, StorageLocality,
    CommunicationCost, CongestionPenalty, ResidualBandwidth, ModelResidency, AdapterResidency,
    ReusableStateLocality, CheckpointMovementCost, StartupCost, ReservationFit,
    FailureDomainDiversification, HealthMargin, EnergyPower, FragmentationImpact,
    ExternalPriority, MigrationRecomputeCost, EstimatedQueueing, PolicyPreference]

  type Weights = w: seq<real> | |w| == FACTOR_COUNT witness DEFAULT_WEIGHTS

  const DEFAULT_WEIGHTS: seq<real> := [
    0.0, 1.0, 1.0, 1.0, 1.0, 2.0, 2.0, 2.0, 1.5, 1.5, 3.0, 2.5, 1.0, 3.0, 2.0, 2.0, 2.0, 1.0, 2.0,
    1.5, 2.0, 0.5, 1.0, 1.0, 1.0, 1.0, 1.0]

  predicate NonNegative(w: Weights) {
    forall i :: 0 <= i < FACTOR_COUNT ==> w[i] >= 0.0
  }

  // --- factor costs ---------------------------------------------------------------------------

  function Clamp01(v: real): real {
    if v < 0.0 then 0.0 else if v > 1.0 then 1.0 else v
  }

  // clamp01 on a double: both tests fail for NaN, which passes through.
  function Clamp(x: Extended): Extended {
    if Less(x, Finite(0.0)) then Finite(0.0) else if Less(Finite(1.0), x) then Finite(1.0) else x
  }

  function RatioOrOne(need: nat, avail: nat): real {
    if avail == 0 then 1.0 else Clamp01(need as real / avail as real)
  }

  function DistanceNorm(d: nat, divisor: real): real
    requires divisor > 0.0
  {
    Clamp01(d as real / divisor)
  }

  function Max(a: real, b: real): real {
    if a < b then b else a
  }

  const MOVE_NORMALIZER: nat := 0x2_0000_0000             // 8 GiB

  // The ranker multiplies in 64 bits, without saturation.
  function RankedVram(a: AcceleratorRequirement): nat {
    if a.aggregateVram > 0 then a.aggregateVram else VramProduct(a)
  }

  // The cast of numaDistance + pcieHops to uint32 is undefined in C++ from 2^32 on; the value chosen
  // there is the usual truncation, and no theorem depends on it.
  function TopologyDistance(l: LocalityEvidence): nat {
    (l.numaDistance + l.pcieHops) % U32_LIMIT
  }

  /** The floating-point evidence the ranker reads. */
  datatype Readings = Readings(
    healthScore: Extended, congestion: Extended, residualBandwidth: Extended,
    estimatedCost: Extended, derivedPathCost: Extended, collectiveCost: Extended)

  function Read(c: Candidate): Readings {
    Readings(Decode(c.health.healthScore), Decode(c.congestion.congestion), Decode(c.congestion.residualBandwidth),
             Decode(c.communication.estimatedCost), Decode(c.communication.derivedPathCost),
             Decode(c.communication.collectiveCost))
  }

  function PathCost(r: Readings): Extended {
    Plus(Plus(r.estimatedCost, r.derivedPathCost), r.collectiveCost)
  }

  predicate Defined(r: Readings) {
    !r.healthScore.NaN? && !r.congestion.NaN? && !r.residualBandwidth.NaN? && !PathCost(r).NaN?
  }

  /** No reading is NaN and the three path costs do not mix infinities of both signs.  Ingest and decode accept
      candidates for which this fails. */
  predicate Scorable(c: Candidate) {
    Defined(Read(c))
  }

  predicate FiniteEvidence(c: Candidate) {
    && IsFinite(c.health.healthScore) && IsFinite(c.congestion.congestion)
    && IsFinite(c.congestion.residualBandwidth) && IsFinite(c.communication.estimatedCost)
    && IsFinite(c.communication.derivedPathCost) && IsFinite(c.communication.collectiveCost)
  }

  lemma FiniteIsScorable(c: Candidate)
    requires FiniteEvidence(c)
    ensures Scorable(c)
  {}

  // The factors that read no floating-point evidence.
  function PlainCost(kind: RankFactorKind, d: DemandProfile, c: Candidate): real {
    var cap := c.capacity;
    var loc := c.locality;
    var res := c.residency;
    match kind
    case AcceleratorFit => RatioOrOne(RankedVram(d.accelerator), cap.vramAvailable)
    case ResourceHeadroom =>
      Max(RatioOrOne(d.cpuRequired, cap.cpuAvailable), RatioOrOne(d.memory.hostMemory, cap.hostMemoryAvailable))
    case VramHeadroom => RatioOrOne(RankedVram(d.accelerator), cap.vramAvailable)
    case CpuHeadroom => RatioOrOne(d.cpuRequired, cap.cpuAvailable)
    case PinnedMemoryHeadroom => RatioOrOne(d.memory.pinnedMemory, cap.pinnedMemoryAvailable)
    case TopologyLocality => Clamp01(DistanceNorm(TopologyDistance(loc), 8.0) + if loc.sharesPcieRoot then 0.25 else 0.0)
    case NumaLocality => DistanceNorm(loc.numaDistance, 4.0)
    case PcieLocality => Clamp01(DistanceNorm(loc.pcieHops, 8.0) + if loc.sharesPcieRoot then 0.5 else 0.0)
    case NicLocality => DistanceNorm(loc.nicDistance, 4.0)
    case StorageLocality => DistanceNorm(loc.storageDistance, 4.0)
    case ModelResidency => if res.modelResident then 0.0 else if res.moveBytes > 0 then 1.0 else 0.5
    case AdapterResidency => if res.adapterResident then 0.0 else if res.moveBytes > 0 then 1.0 else 0.5
    case ReusableStateLocality => if res.stateLocal then 0.0 else 1.0
    case CheckpointMovementCost =>
      var normalizer := if d.maximumMovementCost > 0 then d.maximumMovementCost else MOVE_NORMALIZER;
      Clamp01(res.moveBytes as real / normalizer as real)
    case StartupCost => if res.moveBytes > 0 then 0.1 else 0.0
    case ReservationFit =>
      Clamp01(c.reservation.reservedBytes as real / (if cap.vramTotal > 1 then cap.vramTotal else 1) as real)
    case MigrationRecomputeCost =>
      if res.moveBytes > 0 then Clamp01(res.moveBytes as real / MOVE_NORMALIZER as real) else 0.0
    case _ => 0.0
  }

  function FactorCost(kind: RankFactorKind, d: DemandProfile, c: Candidate, r: Readings): Extended {
    match kind
    case CommunicationCost => Clamp(PathCost(r))
    case CongestionPenalty => Clamp(r.congestion)
    case ResidualBandwidth => Clamp(Plus(Finite(1.0), Negate(r.residualBandwidth)))
    case HealthMargin => Clamp(Plus(Finite(1.0), Negate(r.healthScore)))
    case EstimatedQueueing => Clamp(Scaled(0.5, r.congestion))
    case _ => Finite(PlainCost(kind, d, c))
  }

  // The evidence a factor is computed from, or the provenance it always has.
  datatype Basis = OnCapacity | OnLocality | OnCommunication | OnCongestion | OnResidency | OnReservation | OnHealth
                 | Always(provenance: Provenance)

  function BasisOf(kind: RankFactorKind): Basis {
    match kind
    case AcceleratorFit | ResourceHeadroom | VramHeadroom | CpuHeadroom | PinnedMemoryHeadroom => OnCapacity
    case TopologyLocality | NumaLocality | PcieLocality | NicLocality | StorageLocality => OnLocality
    case CommunicationCost => OnCommunication
    case CongestionPenalty | ResidualBandwidth | EstimatedQueueing => OnCongestion
    case ModelResidency | AdapterResidency | ReusableStateLocality | CheckpointMovementCost | StartupCost
       | MigrationRecomputeCost => OnResidency
    case ReservationFit => OnReservation
    case HealthMargin => OnHealth
    case FailureDomainDiversification | FragmentationImpact => Always(Synthetic)
    case EnergyPower => Always(Unknown)
    case ExternalPriority | PolicyPreference => Always(Reported)
  }

  function BasisProvenance(b: Basis, c: Candidate): Provenance {
    match b
    case OnCapacity => c.capacity.provenance
    case OnLocality => c.locality.provenance
    case OnCommunication => c.communication.provenance
    case OnCongestion => c.congestion.provenance
    case OnResidency => c.residency.provenance
    case OnReservation => c.reservation.provenance
    case OnHealth => c.health.provenance
    case Always(p) => p
  }

  function FactorProvenance(kind: RankFactorKind, c: Candidate): Provenance {
    BasisProvenance(BasisOf(kind), c)
  }

  function Strength(p: Provenance): nat {
    match p
    case Measured => 6
    case Reported => 5
    case Derived => 4
    case Estimated => 3
    case Forecast => 2
    case Synthetic => 1
    case Unknown => 0
  }

  // --- the ranked result ----------------------------------------------------------------------

  datatype Factor = Factor(kind: RankFactorKind, value: Extended, weight: real, provenance: Provenance)

  datatype Ranked = Ranked(
    candidateId: nat, candidateGeneration: nat, score: Extended, factors: seq<Factor>,
    unknownCount: nat, evidenceStrength: nat, movementCost: Extended, headroomCost: Extended,
    congestionCost: Extended, localResources: nat, deterministic: bool)

  // RankingWeights::get
  function Weight(w: Weights, kind: RankFactorKind): real {
    w[OrderIndex(kind)]
  }

  function FactorOf(kind: RankFactorKind, d: DemandProfile, c: Candidate, r: Readings, w: Weights): Factor {
    Factor(kind, FactorCost(kind, d, c, r), Weight(w, kind), FactorProvenance(kind, c))
  }

  function Factors(ks: seq<RankFactorKind>, d: DemandProfile, c: Candidate, r: Readings, w: Weights): seq<Factor> {
    if ks == [] then [] else Factors(ks[..|ks| - 1], d, c, r, w) + [FactorOf(ks[|ks| - 1], d, c, r, w)]
  }

  // The weighted total of a list of factors.
  function Score(fs: seq<Factor>): Extended {
    if fs == [] then Finite(0.0) else Plus(Score(fs[..|fs| - 1]), Scaled(fs[|fs| - 1].weight, fs[|fs| - 1].value))
  }

  function UnknownCount(fs: seq<Factor>): nat {
    if fs == [] then 0 else UnknownCount(fs[..|fs| - 1]) + if fs[|fs| - 1].provenance == Unknown then 1 else 0
  }

  // The weakest provenance met, 255 when there are no factors.
  function Weakest(fs: seq<Factor>): nat {
    if fs == [] then 255
    else
      var s := Strength(fs[|fs| - 1].provenance);
      var w := Weakest(fs[..|fs| - 1]);
      if s < w then s else w
  }

  datatype Group = Movement | Headroom

  predicate InGroup(g: Group, kind: RankFactorKind) {
    match g
    case Movement => kind == CheckpointMovementCost
    case Headroom =>
      kind == ResourceHeadroom || kind == VramHeadroom || kind == CpuHeadroom || kind == PinnedMemoryHeadroom
  }

  // The unweighted total of the factors of one tie-break group.
  function GroupCost(g: Group, fs: seq<Factor>): Extended {
    if fs == [] then Finite(0.0)
    else if InGroup(g, fs[|fs| - 1].kind) then Plus(GroupCost(g, fs[..|fs| - 1]), fs[|fs| - 1].value)
    else GroupCost(g, fs[..|fs| - 1])
  }

  function LocalBindings(bs: seq<DeviceBinding>): nat {
    if bs == [] then 0
    else LocalBindings(bs[..|bs| - 1]) + if bs[|bs| - 1].memoryDomainId != 0 then 1 else 0
  }

  function LocalResources(c: Candidate): nat {
    if c.locality.numaDistance == 0 then LocalBindings(c.bindings) else 0
  }

  function Summarise(c: Candidate, r: Readings, fs: seq<Factor>): Ranked {
    var unknown := UnknownCount(fs);
    var weakest := Weakest(fs);
    Ranked(c.candidateId, c.candidateGeneration, Score(fs), fs, unknown, if weakest == 255 then 0 else weakest,
           GroupCost(Movement, fs), GroupCost(Headroom, fs), Clamp(r.congestion), LocalResources(c), unknown == 0)
  }

  function Rank(d: DemandProfile, c: Candidate, w: Weights): Ranked {
    Summarise(c, Read(c), Factors(FACTOR_ORDER, d, c, Read(c), w))
  }

  method RankFactorIndex(kind: RankFactorKind) returns (i: nat)
    ensures i < FACTOR_COUNT && FACTOR_ORDER[i] == kind
    ensures forall k :: 0 <= k < FACTOR_COUNT && FACTOR_ORDER[k] == kind ==> k == i
  {
    EveryKindListed(kind);
    i := 0;
    while FACTOR_ORDER[i] != kind
      invariant i < FACTOR_COUNT
      invariant forall k :: 0 <= k < i ==> FACTOR_ORDER[k] != kind
      decreases FACTOR_COUNT - i
    {
      i := i + 1;
    }
    NoKindTwice(i);
  }

  lemma EveryKindListed(kind: RankFactorKind)
    ensures exists k :: 0 <= k < FACTOR_COUNT && FACTOR_ORDER[k] == kind
  {
    var k := OrderIndex(kind);
    assert FACTOR_ORDER[k] == kind;
  }

  function OrderIndex(kind: RankFactorKind): (i: nat)
    ensures i < FACTOR_COUNT && FACTOR_ORDER[i] == kind
  {
    match kind
    case AcceleratorFit => 0 case ResourceHeadroom => 1 case VramHeadroom => 2 case CpuHeadroom => 3
    case PinnedMemoryHeadroom => 4 case TopologyLocality => 5 case NumaLocality => 6 case PcieLocality => 7
    case NicLocality => 8 case StorageLocality => 9 case CommunicationCost => 10 case CongestionPenalty => 11
    case ResidualBandwidth => 12 case ModelResidency => 13 case AdapterResidency => 14
    case ReusableStateLocality => 15 case CheckpointMovementCost => 16 case StartupCost => 17
    case ReservationFit => 18 case FailureDomainDiversification => 19 case HealthMargin => 20
    case EnergyPower => 21 case FragmentationImpact => 22 case ExternalPriority => 23
    case MigrationRecomputeCost => 24 case EstimatedQueueing => 25 case PolicyPreference => 26
  }

  lemma NoKindTwice(i: nat)
    requires i < FACTOR_COUNT
    ensures OrderIndex(FACTOR_ORDER[i]) == i
    ensures forall k :: 0 <= k < FACTOR_COUNT && FACTOR_ORDER[k] == FACTOR_ORDER[i] ==> k == i
  {
    EarlyKinds();
    MiddleKinds();
    LateKinds();
  }

  lemma EarlyKinds()
    ensures forall k :: 0 <= k < 9 ==> OrderIndex(FACTOR_ORDER[k]) == k
  {}

  lemma MiddleKinds()
    ensures forall k :: 9 <= k < 18 ==> OrderIndex(FACTOR_ORDER[k]) == k
  {}

  lemma LateKinds()
    ensures forall k :: 18 <= k < FACTOR_COUNT ==> OrderIndex(FACTOR_ORDER[k]) == k
  {}

  /** Ranker::evaluate as the source runs it: one pass over the factor order accumulating every field. */
  method RankCandidate(d: DemandProfile, c: Candidate, w: Weights) returns (ranked: Ranked)
    ensures ranked == Rank(d, c, w)
  {
    ranked := RankOver(FACTOR_ORDER, d, c, Read(c), w);
  }

  method ComputeFactor(kind: RankFactorKind, d: DemandProfile, c: Candidate, r: Readings, w: Weights) returns (f: Factor)
    ensures f == FactorOf(kind, d, c, r, w)
  {
    f := Factor(kind, FactorCost(kind, d, c, r), Weight(w, kind), FactorProvenance(kind, c));
  }

  // The accumulators of the ranking loop.
  datatype Tally = Tally(total: Extended, unknown: nat, minStrength: nat, moveCost: Extended, headroom: Extended)

  function TallyOf(fs: seq<Factor>): Tally {
    Tally(Score(fs), UnknownCount(fs), Weakest(fs), GroupCost(Movement, fs), GroupCost(Headroom, fs))
  }

  method Accumulate(t: Tally, ghost fs: seq<Factor>, f: Factor) returns (t': Tally)
    requires t == TallyOf(fs)
    ensures t' == TallyOf(fs + [f])
  {
    assert (fs + [f])[..|fs|] == fs;
    var total := Plus(t.total, Scaled(f.weight, f.value));
    var unknown, minStrength, moveCost, headroom := t.unknown, t.minStrength, t.moveCost, t.headroom;
    if f.provenance == Unknown { unknown := unknown + 1; }
    var strength := Strength(f.provenance);
    if strength < minStrength { minStrength := strength; }
    if f.kind == CheckpointMovementCost { moveCost := Plus(moveCost, f.value); }
    if f.kind == ResourceHeadroom || f.kind == VramHeadroom || f.kind == CpuHeadroom || f.kind == PinnedMemoryHeadroom {
      headroom := Plus(headroom, f.value);
    }
    t' := Tally(total, unknown, minStrength, moveCost, headroom);
  }

  method RankOver(ks: seq<RankFactorKind>, d: DemandProfile, c: Candidate, r: Readings, w: Weights) returns (ranked: Ranked)
    ensures ranked == Summarise(c, r, Factors(ks, d, c, r, w))
  {
    var t := Tally(Finite(0.0), 0, 255, Finite(0.0), Finite(0.0));
    var factors: seq<Factor> := [];
    var i := 0;
    while i < |ks|
      invariant 0 <= i <= |ks|
      invariant factors == Factors(ks[..i], d, c, r, w)
      invariant t == TallyOf(factors)
    {
      assert ks[..i + 1][..i] == ks[..i];
      var factor := ComputeFactor(ks[i], d, c, r, w);
      t := Accumulate(t, factors, factor);
      factors := factors + [factor];
      i := i + 1;
    }
    assert ks[..i] == ks;
    var localResources := CountLocal(c);
    ranked := Ranked(c.candidateId, c.candidateGeneration, t.total, factors, t.unknown,
                     if t.minStrength == 255 then 0 else t.minStrength, t.moveCost, t.headroom,
                     Clamp(r.congestion), localResources, t.unknown == 0);
  }

  method CountLocal(c: Candidate) returns (n: nat)
    ensures n == LocalResources(c)
  {
    n := 0;
    var k := 0;
    while k < |c.bindings|
      invariant 0 <= k <= |c.bindings|
      invariant n == if c.locality.numaDistance == 0 then LocalBindings(c.bindings[..k]) else 0
    {
      assert c.bindings[..k + 1][..k] == c.bindings[..k];
      if c.bindings[k].memoryDomainId != 0 && c.locality.numaDistance == 0 { n := n + 1; }
      k := k + 1;
    }
    assert c.bindings[..k] == c.bindings;
  }

  // --- when a rank is a number ----------------------------------------------------------------

  // The factors that are NaN for these readings.
  predicate Undefined(kind: RankFactorKind, r: Readings) {
    match kind
    case CommunicationCost => PathCost(r).NaN?
    case CongestionPenalty => r.congestion.NaN?
    case ResidualBandwidth => r.residualBandwidth.NaN?
    case HealthMargin => r.healthScore.NaN?
    case EstimatedQueueing => r.congestion.NaN?
    case _ => false
  }

  predicate InUnit(x: Extended) {
    x.Finite? && 0.0 <= x.value <= 1.0
  }

  lemma PlainInUnit(kind: RankFactorKind, d: DemandProfile, c: Candidate)
    ensures 0.0 <= PlainCost(kind, d, c) <= 1.0
  {}

  lemma ClampInUnit(x: Extended)
    ensures if x.NaN? then Clamp(x).NaN? else InUnit(Clamp(x))
  {}

  /** Every factor cost is a number between 0 and 1, or NaN when a reading it is computed from is. */
  lemma FactorInUnit(kind: RankFactorKind, d: DemandProfile, c: Candidate, r: Readings)
    ensures if Undefined(kind, r) then FactorCost(kind, d, c, r).NaN? else InUnit(FactorCost(kind, d, c, r))
  {
    PlainInUnit(kind, d, c);
    ClampInUnit(PathCost(r));
    ClampInUnit(r.congestion);
    ClampInUnit(Scaled(0.5, r.congestion));
    ClampInUnit(Plus(Finite(1.0), Negate(r.residualBandwidth)));
    ClampInUnit(Plus(Finite(1.0), Negate(r.healthScore)));
  }

  lemma {:induction false} FactorsAt(ks: seq<RankFactorKind>, d: DemandProfile, c: Candidate, r: Readings, w: Weights)
    ensures |Factors(ks, d, c, r, w)| == |ks|
    ensures forall i :: 0 <= i < |ks| ==> Factors(ks, d, c, r, w)[i] == FactorOf(ks[i], d, c, r, w)
  {
    if ks != [] { FactorsAt(ks[..|ks| - 1], d, c, r, w); }
  }

  function WeightSum(fs: seq<Factor>): real {
    if fs == [] then 0.0 else WeightSum(fs[..|fs| - 1]) + fs[|fs| - 1].weight
  }

  ghost predicate UnitOrNaN(fs: seq<Factor>) {
    forall i :: 0 <= i < |fs| ==> fs[i].value.NaN? || InUnit(fs[i].value)
  }

  ghost predicate AllInUnit(fs: seq<Factor>) {
    forall i :: 0 <= i < |fs| ==> InUnit(fs[i].value)
  }

  /** A score is a number exactly when every factor is; one NaN factor makes it NaN, whatever its weight. */
  lemma {:induction false} ScoreIsNumber(fs: seq<Factor>)
    requires UnitOrNaN(fs)
    ensures if AllInUnit(fs) then Score(fs).Finite? else Score(fs).NaN?
  {
    if fs != [] {
      var front := fs[..|fs| - 1];
      ScoreIsNumber(front);
      assert AllInUnit(fs) <==> AllInUnit(front) && InUnit(fs[|fs| - 1].value);
    }
  }

  lemma {:induction false} GroupIsNumber(g: Group, fs: seq<Factor>)
    requires forall i :: 0 <= i < |fs| && InGroup(g, fs[i].kind) ==> fs[i].value.Finite?
    ensures GroupCost(g, fs).Finite?
  {
    if fs != [] { GroupIsNumber(g, fs[..|fs| - 1]); }
  }

  lemma {:induction false} ScoreBounded(fs: seq<Factor>)
    requires AllInUnit(fs) && forall i :: 0 <= i < |fs| ==> fs[i].weight >= 0.0
    ensures Score(fs).Finite? && 0.0 <= Score(fs).value <= WeightSum(fs)
  {
    if fs != [] {
      var f := fs[|fs| - 1];
      ScoreBounded(fs[..|fs| - 1]);
      TermBounded(f.weight, f.value);
    }
  }

  lemma TermBounded(w: real, x: Extended)
    requires w >= 0.0 && InUnit(x)
    ensures Scaled(w, x).Finite? && 0.0 <= Scaled(w, x).value <= w
  {
    ScaleMonotone(w, x.value, 1.0);
    ScaleMonotone(w, 0.0, x.value);
    assert w * 1.0 == w && w * 0.0 == 0.0;
  }

  // Four factors read everything that can be NaN.
  lemma DefinedIffNoneUndefined(r: Readings)
    ensures Defined(r) <==> forall i :: 0 <= i < FACTOR_COUNT ==> !Undefined(FACTOR_ORDER[i], r)
  {
    var ks := FACTOR_ORDER;
    assert ks[10] == CommunicationCost && ks[11] == CongestionPenalty && ks[12] == ResidualBandwidth && ks[20] == HealthMargin;
  }

  /** The factors of a rank, each a number in [0, 1] when the candidate is scorable. */
  lemma RankFactors(d: DemandProfile, c: Candidate, w: Weights)
    ensures var fs := Rank(d, c, w).factors;
      && UnitOrNaN(fs) && (AllInUnit(fs) <==> Scorable(c))
      && |fs| == FACTOR_COUNT && forall i :: 0 <= i < FACTOR_COUNT ==> fs[i] == FactorOf(FACTOR_ORDER[i], d, c, Read(c), w)
  {
    var ks, r := FACTOR_ORDER, Read(c);
    FactorsAt(ks, d, c, r, w);
    forall i | 0 <= i < |ks|
      ensures if Undefined(ks[i], r) then FactorCost(ks[i], d, c, r).NaN? else InUnit(FactorCost(ks[i], d, c, r))
    {
      FactorInUnit(ks[i], d, c, r);
    }
    DefinedIffNoneUndefined(r);
  }

  // Every cost of the rank is a number.
  predicate Numeric(r: Ranked) {
    r.score.Finite? && r.movementCost.Finite? && r.headroomCost.Finite? && r.congestionCost.Finite?
  }

  lemma GroupsAreNumbers(d: DemandProfile, c: Candidate, w: Weights)
    ensures Rank(d, c, w).movementCost.Finite? && Rank(d, c, w).headroomCost.Finite?
  {
    var fs := Rank(d, c, w).factors;
    RankFactors(d, c, w);
    forall i | 0 <= i < |fs| && (InGroup(Movement, fs[i].kind) || InGroup(Headroom, fs[i].kind)) ensures fs[i].value.Finite? {
      assert fs[i] == FactorOf(FACTOR_ORDER[i], d, c, Read(c), w);
    }
    GroupIsNumber(Movement, fs);
    GroupIsNumber(Headroom, fs);
  }

  /** A rank's score is a number exactly when the candidate is scorable, and then so are its tie-break costs;
      otherwise it is NaN. */
  lemma RankNumericIff(d: DemandProfile, c: Candidate, w: Weights)
    ensures if Scorable(c) then Numeric(Rank(d, c, w)) else Rank(d, c, w).score.NaN?
  {
    RankFactors(d, c, w);
    ScoreIsNumber(Rank(d, c, w).factors);
    GroupsAreNumbers(d, c, w);
    ClampInUnit(Read(c).congestion);
  }

  /** With non-negative weights, every factor of a scorable candidate lies in [0, 1] and its score between zero
      and the sum of the weights. */
  lemma RankBounded(d: DemandProfile, c: Candidate, w: Weights)
    requires NonNegative(w) && Scorable(c)
    ensures Rank(d, c, w).score.Finite? && 0.0 <= Rank(d, c, w).score.value <= WeightSum(Rank(d, c, w).factors)
    ensures AllInUnit(Rank(d, c, w).factors)
  {
    RankFactors(d, c, w);
    ScoreBounded(Rank(d, c, w).factors);
  }

  lemma ScaleMonotone(w: real, x: real, y: real)
    requires w >= 0.0 && x <= y
    ensures w * x <= w * y
  {
    assert w * (y - x) >= 0.0;
  }

  lemma {:induction false} UnknownIsWeakest(fs: seq<Factor>, i: nat)
    requires i < |fs| && fs[i].provenance == Unknown
    ensures Weakest(fs) == 0 && UnknownCount(fs) >= 1
  {
    if i < |fs| - 1 { UnknownIsWeakest(fs[..|fs| - 1], i); }
  }

  /** The energy factor always reports Unknown, so the evidence-strength key is the same for every
      candidate and no rank is ever flagged deterministic. */
  lemma StrengthNeverDecides(d: DemandProfile, c: Candidate, w: Weights)
    ensures Rank(d, c, w).evidenceStrength == 0
    ensures Rank(d, c, w).unknownCount >= 1 && !Rank(d, c, w).deterministic
  {
    FactorsAt(FACTOR_ORDER, d, c, Read(c), w);
    UnknownIsWeakest(Factors(FACTOR_ORDER, d, c, Read(c), w), OrderIndex(EnergyPower));
  }

  // --- the comparator -------------------------------------------------------------------------

  predicate Before(a: Ranked, b: Ranked) {
    if !Same(a.score, b.score) then Less(a.score, b.score)
    else if a.unknownCount != b.unknownCount then a.unknownCount < b.unknownCount
    else if a.evidenceStrength != b.evidenceStrength then a.evidenceStrength > b.evidenceStrength
    else if !Same(a.movementCost, b.movementCost) then Less(a.movementCost, b.movementCost)
    else if !Same(a.headroomCost, b.headroomCost) then Less(a.headroomCost, b.headroomCost)
    else if !Same(a.congestionCost, b.congestionCost) then Less(a.congestionCost, b.congestionCost)
    else if a.localResources != b.localResources then a.localResources > b.localResources
    else a.candidateId < b.candidateId
  }

  lemma BeforeIsStrictTotal(a: Ranked, b: Ranked, c: Ranked)
    requires Numeric(a) && Numeric(b) && Numeric(c)
    ensures !Before(a, a)
    ensures Before(a, b) ==> !Before(b, a)
    ensures Before(a, b) && Before(b, c) ==> Before(a, c)
    ensures a.candidateId != b.candidateId ==> Before(a, b) || Before(b, a)
  {}

  /** A rank whose score is NaN precedes nothing and is preceded by nothing. */
  lemma NaNIsUnordered(a: Ranked, b: Ranked)
    requires a.score.NaN? || b.score.NaN?
    ensures !Before(a, b) && !Before(b, a)
  {}
}
