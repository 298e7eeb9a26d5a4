/** The bytes of every record, written out field by field in the order the source writes them. */
module Layout {
  import opened Types
  import opened Ranking
  import opened Coding
  import opened Codes
  import opened Wire
  import opened Records
  import opened CandidateRecords

  // --- parts ----------------------------------------------------------------------------------

  /** The parts one after another. */
  function Join(parts: seq<seq<Byte>>): seq<Byte> {
    if parts == [] then [] else parts[0] + Join(parts[1..])
  }

  function W8(n: nat): seq<Byte> {
    Le(n, 8)
  }

  function W4(n: nat): seq<Byte> {
    Le(n, 4)
  }

  function W1(n: nat): seq<Byte> {
    Le(n, 1)
  }

  function Bool(b: bool): seq<Byte> {
    if b then [1] else [0]
  }

  // A 32-bit length and the bytes.
  function Str32(t: Text): seq<Byte> {
    W4(|t| % U32_LIMIT) + t
  }

  // 32-bit two's complement.
  function I32(n: int): seq<Byte> {
    W4(if -(U32_LIMIT / 2) <= n < 0 then n + U32_LIMIT else if 0 <= n < U32_LIMIT / 2 then n else U32_LIMIT)
  }

  // A 32-bit count and the items.
  function Items32<A>(bytes: A -> seq<Byte>, xs: seq<A>): seq<Byte> {
    W4(|xs| % U32_LIMIT) + Join(seq(|xs|, i requires 0 <= i < |xs| => bytes(xs[i])))
  }

  // --- from the schema to the parts -----------------------------------------------------------

  ghost predicate Alike(fs: seq<Schema>, vs: seq<Value>, parts: seq<seq<Byte>>) {
    |fs| == |vs| == |parts| && forall i :: 0 <= i < |fs| ==> Enc(fs[i], vs[i]) == parts[i]
  }

  lemma {:induction false} FieldsJoin(fs: seq<Schema>, vs: seq<Value>, parts: seq<seq<Byte>>)
    requires Alike(fs, vs, parts)
    ensures EncAll(fs, vs) == Join(parts)
  {
    if fs != [] { FieldsJoin(fs[1..], vs[1..], parts[1..]); }
  }

  lemma FourJoin(f0: Schema, f1: Schema, f2: Schema, f3: Schema, v0: Value, v1: Value, v2: Value, v3: Value,
    p0: seq<Byte>, p1: seq<Byte>, p2: seq<Byte>, p3: seq<Byte>)
    requires Enc(f0, v0) == p0 && Enc(f1, v1) == p1 && Enc(f2, v2) == p2 && Enc(f3, v3) == p3
    ensures Enc(Record([f0, f1, f2, f3]), Tuple([v0, v1, v2, v3])) == Join([p0, p1, p2, p3])
  {
    FieldsJoin([f0, f1, f2, f3], [v0, v1, v2, v3], [p0, p1, p2, p3]);
  }

  lemma SevenJoin(f0: Schema, f1: Schema, f2: Schema, f3: Schema, f4: Schema, f5: Schema, f6: Schema,
    v0: Value, v1: Value, v2: Value, v3: Value, v4: Value, v5: Value, v6: Value,
    p0: seq<Byte>, p1: seq<Byte>, p2: seq<Byte>, p3: seq<Byte>, p4: seq<Byte>, p5: seq<Byte>, p6: seq<Byte>)
    requires Enc(f0, v0) == p0 && Enc(f1, v1) == p1 && Enc(f2, v2) == p2
    requires Enc(f3, v3) == p3 && Enc(f4, v4) == p4 && Enc(f5, v5) == p5
    requires Enc(f6, v6) == p6
    ensures Enc(Record([f0, f1, f2, f3, f4, f5, f6]), Tuple([v0, v1, v2, v3, v4, v5, v6]))
      == Join([p0, p1, p2, p3, p4, p5, p6])
  {
    FieldsJoin([f0, f1, f2, f3, f4, f5, f6], [v0, v1, v2, v3, v4, v5, v6],
               [p0, p1, p2, p3, p4, p5, p6]);
  }

  lemma EightJoin(f0: Schema, f1: Schema, f2: Schema, f3: Schema, f4: Schema, f5: Schema, f6: Schema, f7: Schema,
    v0: Value, v1: Value, v2: Value, v3: Value, v4: Value, v5: Value, v6: Value, v7: Value,
    p0: seq<Byte>, p1: seq<Byte>, p2: seq<Byte>, p3: seq<Byte>, p4: seq<Byte>, p5: seq<Byte>, p6: seq<Byte>, p7: seq<Byte>)
    requires Enc(f0, v0) == p0 && Enc(f1, v1) == p1 && Enc(f2, v2) == p2
    requires Enc(f3, v3) == p3 && Enc(f4, v4) == p4 && Enc(f5, v5) == p5
    requires Enc(f6, v6) == p6 && Enc(f7, v7) == p7
    ensures Enc(Record([f0, f1, f2, f3, f4, f5, f6, f7]), Tuple([v0, v1, v2, v3, v4, v5, v6, v7]))
      == Join([p0, p1, p2, p3, p4, p5, p6, p7])
  {
    FieldsJoin([f0, f1, f2, f3, f4, f5, f6, f7], [v0, v1, v2, v3, v4, v5, v6, v7],
               [p0, p1, p2, p3, p4, p5, p6, p7]);
  }

  lemma NineJoin(f0: Schema, f1: Schema, f2: Schema, f3: Schema, f4: Schema, f5: Schema, f6: Schema, f7: Schema, f8: Schema,
    v0: Value, v1: Value, v2: Value, v3: Value, v4: Value, v5: Value, v6: Value, v7: Value, v8: Value,
    p0: seq<Byte>, p1: seq<Byte>, p2: seq<Byte>, p3: seq<Byte>, p4: seq<Byte>, p5: seq<Byte>, p6: seq<Byte>, p7: seq<Byte>, p8: seq<Byte>)
    requires Enc(f0, v0) == p0 && Enc(f1, v1) == p1 && Enc(f2, v2) == p2
    requires Enc(f3, v3) == p3 && Enc(f4, v4) == p4 && Enc(f5, v5) == p5
    requires Enc(f6, v6) == p6 && Enc(f7, v7) == p7 && Enc(f8, v8) == p8
    ensures Enc(Record([f0, f1, f2, f3, f4, f5, f6, f7, f8]), Tuple([v0, v1, v2, v3, v4, v5, v6, v7, v8]))
      == Join([p0, p1, p2, p3, p4, p5, p6, p7, p8])
  {
    FieldsJoin([f0, f1, f2, f3, f4, f5, f6, f7, f8], [v0, v1, v2, v3, v4, v5, v6, v7, v8],
               [p0, p1, p2, p3, p4, p5, p6, p7, p8]);
  }

  lemma {:induction false} ItemsJoin(elem: Schema, vs: seq<Value>, parts: seq<seq<Byte>>)
    requires |vs| == |parts| && forall i :: 0 <= i < |vs| ==> Enc(elem, vs[i]) == parts[i]
    ensures EncItems(elem, vs) == Join(parts)
  {
    if vs != [] { ItemsJoin(elem, vs[1..], parts[1..]); }
  }

  lemma ListLayout<A>(elem: Schema, unique: bool, f: A -> Value, bytes: A -> seq<Byte>, xs: seq<A>)
    requires forall i :: 0 <= i < |xs| ==> Enc(elem, f(xs[i])) == bytes(xs[i])
    ensures Enc(List(elem, unique), Each(f, xs)) == Items32(bytes, xs)
  {
    ItemsJoin(elem, Each(f, xs).items, seq(|xs|, i requires 0 <= i < |xs| => bytes(xs[i])));
  }

  // Words of eight bytes.
  function W8s(ns: seq<nat>): seq<Byte> {
    Join(seq(|ns|, i requires 0 <= i < |ns| => W8(ns[i])))
  }

  lemma WordsLayout(ns: seq<nat>)
    ensures Enc(Words(|ns|), Nums(ns)) == W8s(ns)
  {
    FieldsJoin(Words(|ns|).fields, Nums(ns).items, seq(|ns|, i requires 0 <= i < |ns| => W8(ns[i])));
  }

  lemma NumbersLayout(k: nat, limit: nat, unique: bool, bytes: nat -> seq<Byte>, ns: seq<nat>)
    requires forall n :: bytes(n) == Le(n, k)
    ensures Enc(List(Word(k, limit), unique), Nums(ns)) == Items32(bytes, ns)
  {
    var f := (n: nat) => Num(n);
    assert Nums(ns).items == Each(f, ns).items;
    ListLayout(Word(k, limit), unique, f, bytes, ns);
  }

  // --- the numbers of the enumerators ---------------------------------------------------------

  const CLASSES: seq<AcceleratorClass> := [NoAccelerator, Cuda, Rocm, Metal, Vulkan, NoneRequired]

  const PROVENANCES: seq<Provenance> := [Measured, Reported, Derived, Estimated, Forecast, Synthetic, Unknown]

  const KINDS: seq<ResourceKind> :=
    [Accelerator, CpuCore, HostMemory, PinnedMemory, Nic, Storage, LinkBandwidth, ModelResident]

  const STATES: seq<LifecycleState> := [
    Requested, Discovering, FilteringState, RankingState, PlanReady, AwaitingResourceCommit, Committed, AwaitingExecution,
    Active, RevalidationRequired, Superseded, Cancelled, Failed, Retired]

  const STATUSES: seq<EligibilityStatus> := [
    Eligible, RejectCapacity, RejectMemory, RejectContiguity, RejectCapability, RejectHealth, RejectTopology, RejectNuma,
    RejectPcie, RejectNetwork, RejectStorage, RejectReservation, RejectDependency, RejectCompatibility,
    RejectFailureDomain, RejectPolicy, NeedsRevalidation, InsufficientEvidence, StatusUnknown]

  const FACTORS: seq<RankFactorKind> := [
    AcceleratorFit, ResourceHeadroom, VramHeadroom, CpuHeadroom, PinnedMemoryHeadroom, TopologyLocality, NumaLocality,
    PcieLocality, NicLocality, StorageLocality, CommunicationCost, CongestionPenalty, ResidualBandwidth, ModelResidency,
    AdapterResidency, ReusableStateLocality, CheckpointMovementCost, StartupCost, ReservationFit,
    FailureDomainDiversification, HealthMargin, EnergyPower, FragmentationImpact, ExternalPriority,
    MigrationRecomputeCost, EstimatedQueueing, PolicyPreference]

  /** Every enumerator is written as its place in the declaration. */
  lemma WrittenNumbers()
    ensures forall i :: 0 <= i < |CLASSES| ==> ClassCode(CLASSES[i]) == i
    ensures forall i :: 0 <= i < |PROVENANCES| ==> ProvenanceCode(PROVENANCES[i]) == i
    ensures forall i :: 0 <= i < |KINDS| ==> KindCode(KINDS[i]) == i
    ensures forall i :: 0 <= i < |STATES| ==> StateCode(STATES[i]) == i
    ensures forall i :: 0 <= i < |STATUSES| ==> StatusCode(STATUSES[i]) == i
    ensures forall i :: 0 <= i < |FACTORS| ==> FactorCode(FACTORS[i]) == i
  {
    FewNumbers();
    StateNumbers();
    StatusNumbers();
    FactorNumbers();
  }

  lemma FewNumbers()
    ensures forall i :: 0 <= i < |CLASSES| ==> ClassCode(CLASSES[i]) == i
    ensures forall i :: 0 <= i < |PROVENANCES| ==> ProvenanceCode(PROVENANCES[i]) == i
    ensures forall i :: 0 <= i < |KINDS| ==> KindCode(KINDS[i]) == i
  {}

  lemma StateNumbers()
    ensures forall i :: 0 <= i < |STATES| ==> StateCode(STATES[i]) == i
  {}

  lemma StatusNumbers()
    ensures forall i :: 0 <= i < |STATUSES| ==> StatusCode(STATUSES[i]) == i
  {}

  lemma FactorNumbers()
    ensures forall i :: 0 <= i < |FACTORS| ==> FactorCode(FACTORS[i]) == i
  {
    assert FACTORS == FACTOR_ORDER;
    forall i | 0 <= i < FACTOR_COUNT ensures FactorCode(FACTORS[i]) == i { NoKindTwice(i); }
  }

  // --- demand and request ---------------------------------------------------------------------

  function AcceleratorPieces(a: AcceleratorRequirement): seq<seq<Byte>> {
    [W8(a.capabilityGeneration), W4(a.minimumCount), W4(a.targetCount), W4(a.maximumCount),
     W8(a.vramPerDevice), W8(a.aggregateVram), Bool(a.requiresContiguousMemory), W1(ClassCode(a.capability))]
  }

  function AcceleratorBytes(a: AcceleratorRequirement): seq<Byte> {
    Join(AcceleratorPieces(a))
  }

  lemma AcceleratorLayout(a: AcceleratorRequirement)
    ensures Enc(AcceleratorSchema, AcceleratorValue(a)) == AcceleratorBytes(a)
  {
    FieldsJoin(AcceleratorSchema.fields, AcceleratorValue(a).items, AcceleratorPieces(a));
  }

  function QuantitiesPieces(d: DemandProfile): seq<seq<Byte>> {
    [W4(d.cpuRequired), W8(d.memory.hostMemory), W8(d.memory.pinnedMemory), W8(d.storage.capacity),
     Bool(d.storage.requireLocal), W8(d.network.bandwidth), Bool(d.network.requireNic)]
  }

  function QuantitiesBytes(d: DemandProfile): seq<Byte> {
    Join(QuantitiesPieces(d))
  }

  lemma QuantitiesLayout(d: DemandProfile)
    ensures Enc(CapacitySchema, CapacityValue(d)) == QuantitiesBytes(d)
  {
    FieldsJoin(CapacitySchema.fields, CapacityValue(d).items, QuantitiesPieces(d));
  }

  function ResidencyPieces(r: ResidencyRequirement): seq<seq<Byte>> {
    [Bool(r.requireModelResident), Bool(r.requireAdapterResident), Bool(r.requireStateLocal),
     Str32(r.modelPath), Str32(r.adapterPath), Str32(r.statePath)]
  }

  function ResidencyBytes(r: ResidencyRequirement): seq<Byte> {
    Join(ResidencyPieces(r))
  }

  lemma ResidencyLayout(r: ResidencyRequirement)
    ensures Enc(ResidencySchema, ResidencyValue(r)) == ResidencyBytes(r)
  {
    FieldsJoin(ResidencySchema.fields, ResidencyValue(r).items, ResidencyPieces(r));
  }

  function ObjectivePieces(d: DemandProfile): seq<seq<Byte>> {
    [W8(d.expectedExecutionDuration), W1(d.latencySensitivity), W8(d.throughputObjective), I32(d.externalPriority),
     W8(d.externalPriorityOrdinal), W8s([d.sloGeneration, d.policyGeneration, d.priorityGeneration]),
     W8(d.maximumMovementCost)]
  }

  function ObjectiveBytes(d: DemandProfile): seq<Byte> {
    Join(ObjectivePieces(d))
  }

  lemma ObjectiveLayout(d: DemandProfile)
    ensures Enc(ObjectiveSchema, ObjectiveValue(d)) == ObjectiveBytes(d)
  {
    WordsLayout([d.sloGeneration, d.policyGeneration, d.priorityGeneration]);
    FieldsJoin(ObjectiveSchema.fields, ObjectiveValue(d).items, ObjectivePieces(d));
  }

  function DemandPieces(d: DemandProfile): seq<seq<Byte>> {
    [W8s([d.demandId, d.demandGeneration, d.workloadId, d.workloadGeneration]), AcceleratorBytes(d.accelerator),
     QuantitiesBytes(d), Join([W1(d.communication), W8(d.communicationBytes)]), ResidencyBytes(d.residency),
     Join([W4(d.failureDomains.minimumDistinctDomains), Bool(d.failureDomains.avoidColocation),
           Bool(d.failureDomains.avoidSingleRoot)]),
     ObjectiveBytes(d), Items32(W1, d.fallbackLocalities), W1(ProvenanceCode(d.provenance))]
  }

  function DemandBytes(d: DemandProfile): seq<Byte> {
    Join(DemandPieces(d))
  }

  lemma TrafficLayout(d: DemandProfile)
    ensures Enc(Record([Code(8), U64]), Tuple([Num(d.communication), Num(d.communicationBytes)]))
      == Join([W1(d.communication), W8(d.communicationBytes)])
  {
    FieldsJoin([Code(8), U64], [Num(d.communication), Num(d.communicationBytes)],
               [W1(d.communication), W8(d.communicationBytes)]);
  }

  lemma DomainsLayout(f: FailureDomainConstraint)
    ensures Enc(Record([U32, Flag, Flag]), Tuple([Num(f.minimumDistinctDomains), Bit(f.avoidColocation), Bit(f.avoidSingleRoot)]))
      == Join([W4(f.minimumDistinctDomains), Bool(f.avoidColocation), Bool(f.avoidSingleRoot)])
  {
    FieldsJoin([U32, Flag, Flag], [Num(f.minimumDistinctDomains), Bit(f.avoidColocation), Bit(f.avoidSingleRoot)],
               [W4(f.minimumDistinctDomains), Bool(f.avoidColocation), Bool(f.avoidSingleRoot)]);
  }

  /** The bytes of a demand; the required topology generation is not among them. */
  lemma DemandLayout(d: DemandProfile)
    ensures Enc(DemandSchema, DemandValue(d)) == DemandBytes(d)
  {
    var ids, f := [d.demandId, d.demandGeneration, d.workloadId, d.workloadGeneration], d.failureDomains;
    WordsLayout(ids);
    AcceleratorLayout(d.accelerator);
    QuantitiesLayout(d);
    TrafficLayout(d);
    ResidencyLayout(d.residency);
    DomainsLayout(f);
    ObjectiveLayout(d);
    NumbersLayout(1, 4, false, W1, d.fallbackLocalities);
    NineJoin(Words(4), AcceleratorSchema, CapacitySchema, Record([Code(8), U64]), ResidencySchema, Record([U32, Flag, Flag]),
             ObjectiveSchema, List(Code(4), false), Code(6),
             Nums(ids), AcceleratorValue(d.accelerator), CapacityValue(d),
             Tuple([Num(d.communication), Num(d.communicationBytes)]), ResidencyValue(d.residency),
             Tuple([Num(f.minimumDistinctDomains), Bit(f.avoidColocation), Bit(f.avoidSingleRoot)]),
             ObjectiveValue(d), Nums(d.fallbackLocalities), Num(ProvenanceCode(d.provenance)),
             W8s(ids), AcceleratorBytes(d.accelerator), QuantitiesBytes(d),
             Join([W1(d.communication), W8(d.communicationBytes)]), ResidencyBytes(d.residency),
             Join([W4(f.minimumDistinctDomains), Bool(f.avoidColocation), Bool(f.avoidSingleRoot)]),
             ObjectiveBytes(d), Items32(W1, d.fallbackLocalities), W1(ProvenanceCode(d.provenance)));
  }

  function RequestPieces(r: SchedulingRequest): seq<seq<Byte>> {
    [W8(r.requestId), W8(r.generation), W8(r.coordinatorEpoch), W8(r.sourceId), W8(r.sourceBootId), W8(r.submitOrdinal),
     DemandBytes(r.demand)]
  }

  function RequestBytes(r: SchedulingRequest): seq<Byte> {
    Join(RequestPieces(r))
  }

  /** The bytes of a request. */
  lemma RequestLayout(r: SchedulingRequest)
    ensures Enc(RequestSchema, RequestValue(r)) == RequestBytes(r)
  {
    DemandLayout(r.demand);
    FieldsJoin(RequestSchema.fields, RequestValue(r).items, RequestPieces(r));
  }

  // --- plan -----------------------------------------------------------------------------------

  function BindingPieces(b: DeviceBinding): seq<seq<Byte>> {
    [W8s([b.deviceId, b.deviceGeneration, b.resourceId, b.resourceGeneration, b.nodeId, b.nodeGeneration,
          b.memoryDomainId, b.memoryDomainGeneration]),
     W8s([b.nicId, b.nicGeneration, b.storageId, b.storageGeneration, b.cpuDomainId, b.cpuDomainGeneration]),
     Str32(b.pcieRoot), Bool(b.sharesPcieRoot), W1(ClassCode(b.capability)), I32(b.cudaCompatibility),
     Bool(b.capabilityCurrent), W8(b.capabilityGeneration)]
  }

  function BindingBytes(b: DeviceBinding): seq<Byte> {
    Join(BindingPieces(b))
  }

  /** The bytes of a device binding. */
  lemma BindingLayout(b: DeviceBinding)
    ensures Enc(BindingSchema, BindingValue(b)) == BindingBytes(b)
  {
    var vs, ps := BindingValue(b).items, BindingPieces(b);
    WordsLayout([b.deviceId, b.deviceGeneration, b.resourceId, b.resourceGeneration, b.nodeId, b.nodeGeneration,
                 b.memoryDomainId, b.memoryDomainGeneration]);
    WordsLayout([b.nicId, b.nicGeneration, b.storageId, b.storageGeneration, b.cpuDomainId, b.cpuDomainGeneration]);
    EightJoin(Words(8), Words(6), Str, Flag, Code(5), U32, Flag, U64, vs[0], vs[1], vs[2], vs[3], vs[4], vs[5], vs[6], vs[7],
              ps[0], ps[1], ps[2], ps[3], ps[4], ps[5], ps[6], ps[7]);
  }

  function ClaimPieces(c: ResourceClaim): seq<seq<Byte>> {
    [W8(c.resourceId), W8(c.resourceGeneration), W1(KindCode(c.kind)), W8(c.amount), Bool(c.provisional)]
  }

  function ClaimBytes(c: ResourceClaim): seq<Byte> {
    Join(ClaimPieces(c))
  }

  lemma ClaimLayout(c: ResourceClaim)
    ensures Enc(ClaimSchema, ClaimValue(c)) == ClaimBytes(c)
  {
    FieldsJoin(ClaimSchema.fields, ClaimValue(c).items, ClaimPieces(c));
  }

  function FactorPieces(f: RankFactor): seq<seq<Byte>> {
    [Le(FactorCode(f.kind), 2), W8(f.value), W8(f.weight), W1(ProvenanceCode(f.provenance)), Str32(f.description)]
  }

  function FactorBytes(f: RankFactor): seq<Byte> {
    Join(FactorPieces(f))
  }

  lemma FactorLayout(f: RankFactor)
    ensures Enc(FactorSchema, FactorValue(f)) == FactorBytes(f)
  {
    FieldsJoin(FactorFields.fields, FactorValue(f).items, FactorPieces(f));
  }

  function RejectedPieces(r: RejectedAlternative): seq<seq<Byte>> {
    [W8(r.candidateId), W8(r.candidateGeneration), W1(StatusCode(r.status)), Str32(r.reason)]
  }

  function RejectedBytes(r: RejectedAlternative): seq<Byte> {
    Join(RejectedPieces(r))
  }

  lemma RejectedLayout(r: RejectedAlternative)
    ensures Enc(RejectedSchema, RejectedValue(r)) == RejectedBytes(r)
  {
    FieldsJoin(RejectedSchema.fields, RejectedValue(r).items, RejectedPieces(r));
  }

  function EntryPieces(h: HistoryEntry): seq<seq<Byte>> {
    [W1(StateCode(h.state)), W8(h.ordinal)]
  }

  function EntryBytes(h: HistoryEntry): seq<Byte> {
    Join(EntryPieces(h))
  }

  lemma EntryLayout(h: HistoryEntry)
    ensures Enc(EntrySchema, EntryValue(h)) == EntryBytes(h)
  {
    FieldsJoin(EntrySchema.fields, EntryValue(h).items, EntryPieces(h));
  }

  function FingerprintPieces(g: GenerationFingerprint): seq<seq<Byte>> {
    [W8s([g.topology, g.capacity, g.reservation, g.congestion, g.capability, g.health]),
     W8s([g.residency, g.communicationPlan, g.policy, g.resource, g.dependency, g.coordinatorEpoch])]
  }

  function FingerprintBytes(g: GenerationFingerprint): seq<Byte> {
    Join(FingerprintPieces(g))
  }

  lemma FingerprintLayout(g: GenerationFingerprint)
    ensures Enc(FingerprintSchema, FingerprintValue(g)) == FingerprintBytes(g)
  {
    WordsLayout([g.topology, g.capacity, g.reservation, g.congestion, g.capability, g.health]);
    WordsLayout([g.residency, g.communicationPlan, g.policy, g.resource, g.dependency, g.coordinatorEpoch]);
    FieldsJoin(FingerprintSchema.fields, FingerprintValue(g).items, FingerprintPieces(g));
  }

  function MovementPieces(p: PlacementPlan): seq<seq<Byte>> {
    [W8(p.communicationPlan), Str32(p.communicationPlanId), W8(p.movementBytes), Str32(p.movementSource),
     Bool(p.residencyPrerequisite)]
  }

  function MovementBytes(p: PlacementPlan): seq<Byte> {
    Join(MovementPieces(p))
  }

  lemma MovementLayout(p: PlacementPlan)
    ensures Enc(MovementSchema, MovementValue(p)) == MovementBytes(p)
  {
    FieldsJoin(MovementSchema.fields, MovementValue(p).items, MovementPieces(p));
  }

  function StandingPieces(p: PlacementPlan): seq<seq<Byte>> {
    [FingerprintBytes(p.generations), W8(p.policyGeneration), W8(p.authorityGeneration), W1(StateCode(p.state)),
     Items32(EntryBytes, p.stateHistory), W8(p.coordinatorEpoch), W8(p.supersededBy), Str32(p.supersessionReason),
     Bool(p.hasCommitmentEvidence)]
  }

  function StandingBytes(p: PlacementPlan): seq<Byte> {
    Join(StandingPieces(p))
  }

  lemma StandingLayout(p: PlacementPlan)
    ensures Enc(StandingSchema, StandingValue(p)) == StandingBytes(p)
  {
    FingerprintLayout(p.generations);
    forall i | 0 <= i < |p.stateHistory| ensures Enc(EntrySchema, EntryValue(p.stateHistory[i])) == EntryBytes(p.stateHistory[i]) {
      EntryLayout(p.stateHistory[i]);
    }
    ListLayout(EntrySchema, false, EntryValue, EntryBytes, p.stateHistory);
    FieldsJoin(StandingSchema.fields, StandingValue(p).items, StandingPieces(p));
  }

  function PlanPieces(p: PlacementPlan): seq<seq<Byte>> {
    [W8(p.planId),
     W8s([p.planGeneration, p.requestId, p.requestGeneration, p.selectedCandidate, p.selectedCandidateGeneration]),
     Items32(W8, p.fallbackCandidates), Items32(BindingBytes, p.bindings), Items32(ClaimBytes, p.claims), MovementBytes(p),
     Items32(FactorBytes, p.selectedFactors), Items32(RejectedBytes, p.rejectedAlternatives), StandingBytes(p)]
  }

  function PlanBytes(p: PlacementPlan): seq<Byte> {
    Join(PlanPieces(p))
  }

  lemma BindingsLayout(bs: seq<DeviceBinding>)
    ensures Enc(List(BindingSchema, false), Each(BindingValue, bs)) == Items32(BindingBytes, bs)
  {
    forall i | 0 <= i < |bs| ensures Enc(BindingSchema, BindingValue(bs[i])) == BindingBytes(bs[i]) { BindingLayout(bs[i]); }
    ListLayout(BindingSchema, false, BindingValue, BindingBytes, bs);
  }

  lemma ClaimsLayout(cs: seq<ResourceClaim>)
    ensures Enc(List(ClaimSchema, false), Each(ClaimValue, cs)) == Items32(ClaimBytes, cs)
  {
    forall i | 0 <= i < |cs| ensures Enc(ClaimSchema, ClaimValue(cs[i])) == ClaimBytes(cs[i]) { ClaimLayout(cs[i]); }
    ListLayout(ClaimSchema, false, ClaimValue, ClaimBytes, cs);
  }

  lemma FactorsLayout(fs: seq<RankFactor>)
    ensures Enc(List(FactorSchema, false), Each(FactorValue, fs)) == Items32(FactorBytes, fs)
  {
    forall i | 0 <= i < |fs| ensures Enc(FactorSchema, FactorValue(fs[i])) == FactorBytes(fs[i]) { FactorLayout(fs[i]); }
    ListLayout(FactorSchema, false, FactorValue, FactorBytes, fs);
  }

  lemma RejectionsLayout(rs: seq<RejectedAlternative>)
    ensures Enc(List(RejectedSchema, false), Each(RejectedValue, rs)) == Items32(RejectedBytes, rs)
  {
    forall i | 0 <= i < |rs| ensures Enc(RejectedSchema, RejectedValue(rs[i])) == RejectedBytes(rs[i]) { RejectedLayout(rs[i]); }
    ListLayout(RejectedSchema, false, RejectedValue, RejectedBytes, rs);
  }

  lemma PlanGroups(p: PlacementPlan)
    ensures Alike(PlanSchema.fields, PlanValue(p).items, PlanPieces(p))
  {
    WordsLayout([p.planGeneration, p.requestId, p.requestGeneration, p.selectedCandidate, p.selectedCandidateGeneration]);
    NumbersLayout(8, U64_LIMIT - 1, false, W8, p.fallbackCandidates);
    BindingsLayout(p.bindings);
    ClaimsLayout(p.claims);
    MovementLayout(p);
    FactorsLayout(p.selectedFactors);
    RejectionsLayout(p.rejectedAlternatives);
    StandingLayout(p);
  }

  /** The bytes of a plan. */
  lemma PlanLayout(p: PlacementPlan)
    ensures Enc(PlanSchema, PlanValue(p)) == PlanBytes(p)
  {
    PlanGroups(p);
    FieldsJoin(PlanSchema.fields, PlanValue(p).items, PlanPieces(p));
  }

  // --- candidate ------------------------------------------------------------------------------

  function CapacityPieces(c: CapacityEvidence): seq<seq<Byte>> {
    [W8s([c.generation, c.vramTotal, c.vramUsed, c.vramAvailable, c.hostMemoryAvailable, c.pinnedMemoryAvailable]),
     W4(c.cpuAvailable), W8(c.storageAvailable), W8(c.nicBandwidthAvailable), Bool(c.contiguousMemory),
     W1(ProvenanceCode(c.provenance))]
  }

  function CapacityBytes(c: CapacityEvidence): seq<Byte> {
    Join(CapacityPieces(c))
  }

  lemma CapacityLayout(c: CapacityEvidence)
    ensures Enc(CapacityEvidenceSchema, CapacityEvidenceValue(c)) == CapacityBytes(c)
  {
    WordsLayout([c.generation, c.vramTotal, c.vramUsed, c.vramAvailable, c.hostMemoryAvailable, c.pinnedMemoryAvailable]);
    FieldsJoin(CapacityEvidenceSchema.fields, CapacityEvidenceValue(c).items, CapacityPieces(c));
  }

  function HealthPieces(h: HealthEvidence): seq<seq<Byte>> {
    [W8(h.generation), Bool(h.ready), W8(h.healthScore), Str32(h.degradationReason), W1(ProvenanceCode(h.provenance))]
  }

  function HealthBytes(h: HealthEvidence): seq<Byte> {
    Join(HealthPieces(h))
  }

  lemma HealthLayout(h: HealthEvidence)
    ensures Enc(HealthSchema, HealthValue(h)) == HealthBytes(h)
  {
    FieldsJoin(HealthSchema.fields, HealthValue(h).items, HealthPieces(h));
  }

  function ReservationPieces(r: ReservationEvidence): seq<seq<Byte>> {
    [W8(r.generation), Bool(r.protectedResource), W8(r.reservedBytes), Str32(r.reservationId), W1(ProvenanceCode(r.provenance))]
  }

  function ReservationBytes(r: ReservationEvidence): seq<Byte> {
    Join(ReservationPieces(r))
  }

  lemma ReservationLayout(r: ReservationEvidence)
    ensures Enc(ReservationSchema, ReservationValue(r)) == ReservationBytes(r)
  {
    FieldsJoin(ReservationSchema.fields, ReservationValue(r).items, ReservationPieces(r));
  }

  function CongestionPieces(c: CongestionEvidence): seq<seq<Byte>> {
    [W8(c.generation), W8(c.congestion), W8(c.residualBandwidth), W8(c.bandwidthNominal), Str32(c.bottleneck),
     W1(ProvenanceCode(c.provenance))]
  }

  function CongestionBytes(c: CongestionEvidence): seq<Byte> {
    Join(CongestionPieces(c))
  }

  lemma CongestionLayout(c: CongestionEvidence)
    ensures Enc(CongestionSchema, CongestionValue(c)) == CongestionBytes(c)
  {
    FieldsJoin(CongestionSchema.fields, CongestionValue(c).items, CongestionPieces(c));
  }

  function LocalityPieces(l: LocalityEvidence): seq<seq<Byte>> {
    [W8(l.topologyGeneration), W4(l.numaDistance), W4(l.pcieHops), Bool(l.sharesPcieRoot), W4(l.nicDistance),
     W4(l.storageDistance), Str32(l.topologyGroup), W1(ProvenanceCode(l.provenance))]
  }

  function LocalityBytes(l: LocalityEvidence): seq<Byte> {
    Join(LocalityPieces(l))
  }

  lemma LocalityLayout(l: LocalityEvidence)
    ensures Enc(LocalitySchema, LocalityValue(l)) == LocalityBytes(l)
  {
    FieldsJoin(LocalitySchema.fields, LocalityValue(l).items, LocalityPieces(l));
  }

  function CommunicationPieces(c: CommunicationEvidence): seq<seq<Byte>> {
    [W8(c.planGeneration), W8(c.estimatedCost), W8(c.derivedPathCost), W8(c.collectiveCost), Bool(c.pathFeasible),
     Str32(c.planId), W1(ProvenanceCode(c.provenance))]
  }

  function CommunicationBytes(c: CommunicationEvidence): seq<Byte> {
    Join(CommunicationPieces(c))
  }

  lemma CommunicationLayout(c: CommunicationEvidence)
    ensures Enc(CommunicationSchema, CommunicationValue(c)) == CommunicationBytes(c)
  {
    FieldsJoin(CommunicationSchema.fields, CommunicationValue(c).items, CommunicationPieces(c));
  }

  function ResidentPieces(r: ResidencyEvidence): seq<seq<Byte>> {
    [W8(r.residencyGeneration), Bool(r.modelResident), Bool(r.adapterResident), Bool(r.stateLocal), W8(r.moveBytes),
     Str32(r.moveSource), W1(ProvenanceCode(r.provenance))]
  }

  function ResidentBytes(r: ResidencyEvidence): seq<Byte> {
    Join(ResidentPieces(r))
  }

  lemma ResidentLayout(r: ResidencyEvidence)
    ensures Enc(ResidencyEvidenceSchema, ResidencyEvidenceValue(r)) == ResidentBytes(r)
  {
    var vs, ps := ResidencyEvidenceValue(r).items, ResidentPieces(r);
    SevenJoin(U64, Flag, Flag, Flag, U64, Str, Code(6), vs[0], vs[1], vs[2], vs[3], vs[4], vs[5], vs[6],
              ps[0], ps[1], ps[2], ps[3], ps[4], ps[5], ps[6]);
  }

  function StatePieces(c: Candidate): seq<seq<Byte>> {
    [CapacityBytes(c.capacity), HealthBytes(c.health), ReservationBytes(c.reservation), CongestionBytes(c.congestion)]
  }

  function PlacePieces(c: Candidate): seq<seq<Byte>> {
    [LocalityBytes(c.locality), CommunicationBytes(c.communication), ResidentBytes(c.residency)]
  }

  function CandidatePieces(c: Candidate): seq<seq<Byte>> {
    [W8s([c.candidateId, c.candidateGeneration, c.sourceId, c.sourceBootId, c.workerId, c.workerBootId]),
     W1(ProvenanceCode(c.provenance)), Items32(BindingBytes, c.bindings), Join(StatePieces(c)), Join(PlacePieces(c)),
     W8(c.policyGeneration), W8(c.memoryMovementCost)]
  }

  function CandidateBytes(c: Candidate): seq<Byte> {
    Join(CandidatePieces(c))
  }

  lemma StateLayout(c: Candidate)
    ensures Enc(CandidateSchema.fields[3], CandidateValue(c).items[3]) == Join(StatePieces(c))
  {
    CapacityLayout(c.capacity);
    HealthLayout(c.health);
    ReservationLayout(c.reservation);
    CongestionLayout(c.congestion);
    FieldsJoin(CandidateSchema.fields[3].fields, CandidateValue(c).items[3].items, StatePieces(c));
  }

  lemma PlaceLayout(c: Candidate)
    ensures Enc(CandidateSchema.fields[4], CandidateValue(c).items[4]) == Join(PlacePieces(c))
  {
    LocalityLayout(c.locality);
    CommunicationLayout(c.communication);
    ResidentLayout(c.residency);
    FieldsJoin(CandidateSchema.fields[4].fields, CandidateValue(c).items[4].items, PlacePieces(c));
  }

  /** The bytes of a candidate. */
  lemma CandidateLayout(c: Candidate)
    ensures Enc(CandidateSchema, CandidateValue(c)) == CandidateBytes(c)
  {
    WordsLayout(CandidateIds(c));
    BindingsLayout(c.bindings);
    StateLayout(c);
    PlaceLayout(c);
    FieldsJoin(CandidateSchema.fields, CandidateValue(c).items, CandidatePieces(c));
  }

  function IdentityPieces(c: CandidateIdentity): seq<seq<Byte>> {
    [W8(c.candidateId), W8(c.candidateGeneration), W8(c.sourceId), W8(c.sourceBootId), W8(c.workerId), W8(c.workerBootId)]
  }

  function IdentityBytes(c: CandidateIdentity): seq<Byte> {
    Join(IdentityPieces(c))
  }

  lemma IdentityLayout(c: CandidateIdentity)
    ensures Enc(IdentitySchema, IdentityValue(c)) == IdentityBytes(c)
  {
    FieldsJoin(IdentitySchema.fields, IdentityValue(c).items, IdentityPieces(c));
  }
}
