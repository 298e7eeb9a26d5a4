/**
  The records of the scheduler as wire values: for each, its schema in the order its encoder writes the fields,
  the value written, and the record read back.  Nested tuples group neighbouring fields; they add no bytes.
*/
module Records {
  import opened Types
  import opened Doubles
  import opened Demand
  import opened Codes
  import opened Wire

  // --- fields ---------------------------------------------------------------------------------

  const U64: Schema := Word(8, U64_LIMIT - 1)
  const U32: Schema := Word(4, U32_LIMIT - 1)

  function Code(largest: nat): Schema {
    Word(1, largest)
  }

  function Words(n: nat): Schema {
    Record(seq(n, i => U64))
  }

  // Written as the 32-bit two's complement; a number out of that range has no place in a u32.
  function Signed(n: int): (v: Value)
    ensures v.Num?
  {
    if 0 <= n < U32_LIMIT / 2 then Num(n) else if -(U32_LIMIT / 2) <= n < 0 then Num(n + U32_LIMIT) else Num(U32_LIMIT)
  }

  function FromSigned(n: nat): int {
    if n < U32_LIMIT / 2 then n else n - U32_LIMIT
  }

  function Nums(ns: seq<nat>): Value {
    Tuple(seq(|ns|, i requires 0 <= i < |ns| => Num(ns[i])))
  }

  // Reading a value apart; out-of-shape parts read as defaults.
  function At(v: Value, i: nat): Value {
    if v.Tuple? && i < |v.items| then v.items[i] else Num(0)
  }

  function N(v: Value, i: nat): nat {
    if At(v, i).Num? then At(v, i).n else 0
  }

  function B(v: Value, i: nat): bool {
    At(v, i).Bit? && At(v, i).b
  }

  function T(v: Value, i: nat): Text {
    if At(v, i).Chars? then At(v, i).text else []
  }

  function Items(v: Value): seq<Value> {
    if v.Tuple? then v.items else []
  }

  function NumsOf(v: Value): seq<nat> {
    seq(|Items(v)|, i requires 0 <= i < |Items(v)| => if Items(v)[i].Num? then Items(v)[i].n else 0)
  }

  // --- demand ---------------------------------------------------------------------------------

  const AcceleratorSchema: Schema := Record([U64, U32, U32, U32, U64, U64, Flag, Code(5)])

  function AcceleratorValue(a: AcceleratorRequirement): Value {
    Tuple([Num(a.capabilityGeneration), Num(a.minimumCount), Num(a.targetCount), Num(a.maximumCount),
           Num(a.vramPerDevice), Num(a.aggregateVram), Bit(a.requiresContiguousMemory),
           Num(ClassCode(a.capability))])
  }

  function AcceleratorOf(v: Value): AcceleratorRequirement {
    AcceleratorRequirement(ClassOf(N(v, 7)), N(v, 1), N(v, 2), N(v, 3), N(v, 4), N(v, 5), B(v, 6), N(v, 0))
  }

  const CapacitySchema: Schema := Record([U32, U64, U64, U64, Flag, U64, Flag])

  const ResidencySchema: Schema := Record([Flag, Flag, Flag, Str, Str, Str])

  const ObjectiveSchema: Schema := Record([U64, Code(3), U64, U32, U64, Words(3), U64])

  function CapacityValue(d: DemandProfile): Value {
    Tuple([Num(d.cpuRequired), Num(d.memory.hostMemory), Num(d.memory.pinnedMemory), Num(d.storage.capacity),
           Bit(d.storage.requireLocal), Num(d.network.bandwidth), Bit(d.network.requireNic)])
  }

  function ResidencyValue(r: ResidencyRequirement): Value {
    Tuple([Bit(r.requireModelResident), Bit(r.requireAdapterResident), Bit(r.requireStateLocal),
           Chars(r.modelPath), Chars(r.adapterPath), Chars(r.statePath)])
  }

  function ObjectiveValue(d: DemandProfile): Value {
    Tuple([Num(d.expectedExecutionDuration), Num(d.latencySensitivity), Num(d.throughputObjective),
           Signed(d.externalPriority), Num(d.externalPriorityOrdinal),
           Nums([d.sloGeneration, d.policyGeneration, d.priorityGeneration]), Num(d.maximumMovementCost)])
  }

  // requiredTopologyGeneration is not written.
  function DemandValue(d: DemandProfile): Value {
    Tuple([Nums([d.demandId, d.demandGeneration, d.workloadId, d.workloadGeneration]),
           AcceleratorValue(d.accelerator), CapacityValue(d),
           Tuple([Num(d.communication), Num(d.communicationBytes)]), ResidencyValue(d.residency),
           Tuple([Num(d.failureDomains.minimumDistinctDomains), Bit(d.failureDomains.avoidColocation),
                  Bit(d.failureDomains.avoidSingleRoot)]),
           ObjectiveValue(d), Nums(d.fallbackLocalities), Num(ProvenanceCode(d.provenance))])
  }

  const DemandFields: Schema := Record([
    Words(4), AcceleratorSchema, CapacitySchema, Record([Code(8), U64]), ResidencySchema,
    Record([U32, Flag, Flag]), ObjectiveSchema, List(Code(4), false), Code(6)])

  function DemandOf(v: Value): DemandProfile {
    var ids, cap, comm, res, fd, obj := At(v, 0), At(v, 2), At(v, 3), At(v, 4), At(v, 5), At(v, 6);
    var gens := At(obj, 5);
    DemandProfile(
      N(ids, 0), N(ids, 1), N(ids, 2), N(ids, 3), AcceleratorOf(At(v, 1)), N(cap, 0),
      MemoryRequirement(N(cap, 1), N(cap, 2)), StorageRequirement(N(cap, 3), B(cap, 4)),
      NetworkRequirement(N(cap, 5), B(cap, 6)), 0, N(comm, 0), N(comm, 1),
      ResidencyRequirement(B(res, 0), B(res, 1), B(res, 2), T(res, 3), T(res, 4), T(res, 5)),
      FailureDomainConstraint(N(fd, 0), B(fd, 1), B(fd, 2)), N(obj, 0), N(obj, 1), N(obj, 2), FromSigned(N(obj, 3)),
      N(obj, 4), N(gens, 0), N(gens, 1), N(gens, 2), N(obj, 6), NumsOf(At(v, 7)), ProvenanceOf(N(v, 8)))
  }

  // The decoded profile is validated before it is returned.
  function DemandRule(v: Value): Option<ErrorCode> {
    DemandError(DemandOf(v))
  }

  const DemandSchema: Schema := Checked(DemandFields, DemandRule)

  function Untargeted(d: DemandProfile): DemandProfile {
    d.(requiredTopologyGeneration := 0)
  }

  lemma NumsRead(ns: seq<nat>)
    ensures NumsOf(Nums(ns)) == ns
    ensures forall i :: 0 <= i < |ns| ==> N(Nums(ns), i) == ns[i]
  {}

  lemma GroupsRead(d: DemandProfile)
    requires Signed(d.externalPriority).n < U32_LIMIT
    ensures var v := CapacityValue(d);
      && N(v, 0) == d.cpuRequired && N(v, 1) == d.memory.hostMemory && N(v, 2) == d.memory.pinnedMemory
      && N(v, 3) == d.storage.capacity && B(v, 4) == d.storage.requireLocal && N(v, 5) == d.network.bandwidth
      && B(v, 6) == d.network.requireNic
    ensures var v, r := ResidencyValue(d.residency), d.residency;
      && B(v, 0) == r.requireModelResident && B(v, 1) == r.requireAdapterResident && B(v, 2) == r.requireStateLocal
      && T(v, 3) == r.modelPath && T(v, 4) == r.adapterPath && T(v, 5) == r.statePath
    ensures var v := ObjectiveValue(d);
      && N(v, 0) == d.expectedExecutionDuration && N(v, 1) == d.latencySensitivity && N(v, 2) == d.throughputObjective
      && FromSigned(N(v, 3)) == d.externalPriority && N(v, 4) == d.externalPriorityOrdinal
      && At(v, 5) == Nums([d.sloGeneration, d.policyGeneration, d.priorityGeneration]) && N(v, 6) == d.maximumMovementCost
  {}

  lemma DemandParts(d: DemandProfile)
    ensures var v := DemandValue(d);
      && At(v, 0) == Nums([d.demandId, d.demandGeneration, d.workloadId, d.workloadGeneration])
      && At(v, 1) == AcceleratorValue(d.accelerator) && At(v, 2) == CapacityValue(d)
      && N(At(v, 3), 0) == d.communication && N(At(v, 3), 1) == d.communicationBytes
      && At(v, 4) == ResidencyValue(d.residency)
      && N(At(v, 5), 0) == d.failureDomains.minimumDistinctDomains && B(At(v, 5), 1) == d.failureDomains.avoidColocation
      && B(At(v, 5), 2) == d.failureDomains.avoidSingleRoot
      && At(v, 6) == ObjectiveValue(d) && At(v, 7) == Nums(d.fallbackLocalities)
      && N(v, 8) == ProvenanceCode(d.provenance)
  {}

  /** Everything of a demand survives but the required topology generation. */
  lemma DemandReads(d: DemandProfile)
    requires Shaped(DemandSchema, DemandValue(d))
    ensures DemandOf(DemandValue(d)) == Untargeted(d)
  {
    ObjectiveShaped(d);
    NumsRead(d.fallbackLocalities);
    var ids := [d.demandId, d.demandGeneration, d.workloadId, d.workloadGeneration];
    var gens := [d.sloGeneration, d.policyGeneration, d.priorityGeneration];
    NumsRead(ids);
    NumsRead(gens);
    assert ids[0] == d.demandId && ids[1] == d.demandGeneration && ids[2] == d.workloadId && ids[3] == d.workloadGeneration;
    assert gens[0] == d.sloGeneration && gens[1] == d.policyGeneration && gens[2] == d.priorityGeneration;
    DemandParts(d);
    GroupsRead(d);
  }

  lemma ObjectiveShaped(d: DemandProfile)
    requires Shaped(DemandSchema, DemandValue(d))
    ensures Signed(d.externalPriority).n < U32_LIMIT
  {
    Coding.Widths();
    var vs, fs := DemandValue(d).items, DemandFields.fields;
    assert Shaped(fs[6], vs[6]);
    assert fs[6] == ObjectiveSchema && vs[6] == ObjectiveValue(d);
    assert Shaped(ObjectiveSchema.fields[3], ObjectiveValue(d).items[3]);
  }

  // --- request --------------------------------------------------------------------------------

  const RequestSchema: Schema := Record([U64, U64, U64, U64, U64, U64, DemandSchema])

  function RequestValue(r: SchedulingRequest): Value {
    Tuple([Num(r.requestId), Num(r.generation), Num(r.coordinatorEpoch), Num(r.sourceId), Num(r.sourceBootId),
           Num(r.submitOrdinal), DemandValue(r.demand)])
  }

  function RequestOf(v: Value): SchedulingRequest {
    SchedulingRequest(N(v, 0), N(v, 1), DemandOf(At(v, 6)), N(v, 2), N(v, 3), N(v, 4), N(v, 5))
  }

  function Sent(r: SchedulingRequest): SchedulingRequest {
    r.(demand := Untargeted(r.demand))
  }

  lemma RequestReads(r: SchedulingRequest)
    requires Shaped(RequestSchema, RequestValue(r))
    ensures RequestOf(RequestValue(r)) == Sent(r)
  {
    assert Shaped(RequestSchema.fields[6], RequestValue(r).items[6]);
    DemandReads(r.demand);
  }

  // --- bindings, claims, factors, rejections --------------------------------------------------

  const BindingSchema: Schema := Record([Words(8), Words(6), Str, Flag, Code(5), U32, Flag, U64])

  function BindingValue(b: DeviceBinding): Value {
    Tuple([Nums([b.deviceId, b.deviceGeneration, b.resourceId, b.resourceGeneration, b.nodeId, b.nodeGeneration,
                 b.memoryDomainId, b.memoryDomainGeneration]),
           Nums([b.nicId, b.nicGeneration, b.storageId, b.storageGeneration, b.cpuDomainId, b.cpuDomainGeneration]),
           Chars(b.pcieRoot), Bit(b.sharesPcieRoot), Num(ClassCode(b.capability)), Signed(b.cudaCompatibility),
           Bit(b.capabilityCurrent), Num(b.capabilityGeneration)])
  }

  function BindingOf(v: Value): DeviceBinding {
    var x, y := At(v, 0), At(v, 1);
    DeviceBinding(N(x, 0), N(x, 1), N(x, 2), N(x, 3), N(x, 4), N(x, 5), N(x, 6), N(x, 7),
                  N(y, 0), N(y, 1), N(y, 2), N(y, 3), N(y, 4), N(y, 5),
                  T(v, 2), B(v, 3), ClassOf(N(v, 4)), FromSigned(N(v, 5)), B(v, 6), N(v, 7))
  }

  lemma BindingReads(b: DeviceBinding)
    requires Shaped(BindingSchema, BindingValue(b))
    ensures BindingOf(BindingValue(b)) == b
  {
    Coding.Widths();
    assert Shaped(BindingSchema.fields[5], BindingValue(b).items[5]);
    var x := [b.deviceId, b.deviceGeneration, b.resourceId, b.resourceGeneration, b.nodeId, b.nodeGeneration,
              b.memoryDomainId, b.memoryDomainGeneration];
    var y := [b.nicId, b.nicGeneration, b.storageId, b.storageGeneration, b.cpuDomainId, b.cpuDomainGeneration];
    NumsRead(x);
    NumsRead(y);
  }

  const ClaimSchema: Schema := Record([U64, U64, Code(7), U64, Flag])

  function ClaimValue(c: ResourceClaim): Value {
    Tuple([Num(c.resourceId), Num(c.resourceGeneration), Num(KindCode(c.kind)), Num(c.amount), Bit(c.provisional)])
  }

  function ClaimOf(v: Value): ResourceClaim {
    ResourceClaim(N(v, 0), N(v, 1), KindOf(N(v, 2)), N(v, 3), B(v, 4))
  }

  const FactorFields: Schema := Record([Word(2, 26), U64, U64, Code(6), Str])

  function FactorValue(f: RankFactor): Value {
    Tuple([Num(FactorCode(f.kind)), Num(f.value), Num(f.weight), Num(ProvenanceCode(f.provenance)), Chars(f.description)])
  }

  function RankFactorOf(v: Value): RankFactor {
    RankFactor(FactorKindOf(N(v, 0)), N(v, 1), N(v, 2), ProvenanceOf(N(v, 3)), T(v, 4))
  }

  function FactorRule(v: Value): Option<ErrorCode> {
    if IsFinite(RankFactorOf(v).value) then None else Some(Corruption)
  }

  const FactorSchema: Schema := Checked(FactorFields, FactorRule)

  const RejectedSchema: Schema := Record([U64, U64, Code(18), Str])

  function RejectedValue(r: RejectedAlternative): Value {
    Tuple([Num(r.candidateId), Num(r.candidateGeneration), Num(StatusCode(r.status)), Chars(r.reason)])
  }

  function RejectedOf(v: Value): RejectedAlternative {
    RejectedAlternative(N(v, 0), N(v, 1), StatusOf(N(v, 2)), T(v, 3))
  }

  const EntrySchema: Schema := Record([Code(13), U64])

  function EntryValue(h: HistoryEntry): Value {
    Tuple([Num(StateCode(h.state)), Num(h.ordinal)])
  }

  function EntryOf(v: Value): HistoryEntry {
    HistoryEntry(StateOf(N(v, 0)), N(v, 1))
  }

  // --- lists ----------------------------------------------------------------------------------

  function Each<A>(f: A -> Value, xs: seq<A>): Value {
    Tuple(seq(|xs|, i requires 0 <= i < |xs| => f(xs[i])))
  }

  function EachOf<A>(f: Value -> A, v: Value): seq<A> {
    seq(|Items(v)|, i requires 0 <= i < |Items(v)| => f(Items(v)[i]))
  }

  lemma EachReads<A>(f: A -> Value, g: Value -> A, xs: seq<A>)
    requires forall i :: 0 <= i < |xs| ==> g(f(xs[i])) == xs[i]
    ensures EachOf(g, Each(f, xs)) == xs
  {}

  // --- plan -----------------------------------------------------------------------------------

  function FingerprintValue(g: GenerationFingerprint): Value {
    Tuple([Nums([g.topology, g.capacity, g.reservation, g.congestion, g.capability, g.health]),
           Nums([g.residency, g.communicationPlan, g.policy, g.resource, g.dependency, g.coordinatorEpoch])])
  }

  const FingerprintSchema: Schema := Record([Words(6), Words(6)])

  function FingerprintOf(v: Value): GenerationFingerprint {
    var x, y := At(v, 0), At(v, 1);
    GenerationFingerprint(N(x, 0), N(x, 1), N(x, 2), N(x, 3), N(x, 4), N(x, 5),
                          N(y, 0), N(y, 1), N(y, 2), N(y, 3), N(y, 4), N(y, 5))
  }

  lemma FingerprintReads(g: GenerationFingerprint)
    ensures FingerprintOf(FingerprintValue(g)) == g
  {
    NumsRead([g.topology, g.capacity, g.reservation, g.congestion, g.capability, g.health]);
    NumsRead([g.residency, g.communicationPlan, g.policy, g.resource, g.dependency, g.coordinatorEpoch]);
  }

  const OriginSchema: Schema := Words(5)

  function OriginValue(p: PlacementPlan): Value {
    Nums([p.planGeneration, p.requestId, p.requestGeneration, p.selectedCandidate, p.selectedCandidateGeneration])
  }

  const MovementSchema: Schema := Record([U64, Str, U64, Str, Flag])

  function MovementValue(p: PlacementPlan): Value {
    Tuple([Num(p.communicationPlan), Chars(p.communicationPlanId), Num(p.movementBytes), Chars(p.movementSource),
           Bit(p.residencyPrerequisite)])
  }

  const StandingSchema: Schema := Record([
    FingerprintSchema, U64, U64, Code(13), List(EntrySchema, false), U64, U64, Str, Flag])

  function StandingValue(p: PlacementPlan): Value {
    Tuple([FingerprintValue(p.generations), Num(p.policyGeneration), Num(p.authorityGeneration),
           Num(StateCode(p.state)), Each(EntryValue, p.stateHistory), Num(p.coordinatorEpoch), Num(p.supersededBy),
           Chars(p.supersessionReason), Bit(p.hasCommitmentEvidence)])
  }

  const PlanSchema: Schema := Record([
    U64, OriginSchema, List(U64, false), List(BindingSchema, false), List(ClaimSchema, false), MovementSchema,
    List(FactorSchema, false), List(RejectedSchema, false), StandingSchema])

  function PlanValue(p: PlacementPlan): Value {
    Tuple([Num(p.planId), OriginValue(p), Nums(p.fallbackCandidates), Each(BindingValue, p.bindings),
           Each(ClaimValue, p.claims), MovementValue(p), Each(FactorValue, p.selectedFactors),
           Each(RejectedValue, p.rejectedAlternatives), StandingValue(p)])
  }

  function PlanOf(v: Value): PlacementPlan {
    var o, m, s := At(v, 1), At(v, 5), At(v, 8);
    PlacementPlan(
      N(v, 0), N(o, 0), N(o, 1), N(o, 2), N(o, 3), N(o, 4), NumsOf(At(v, 2)), EachOf(BindingOf, At(v, 3)),
      EachOf(ClaimOf, At(v, 4)), N(m, 0), T(m, 1), N(m, 2), T(m, 3), B(m, 4), EachOf(RankFactorOf, At(v, 6)),
      EachOf(RejectedOf, At(v, 7)), FingerprintOf(At(s, 0)), N(s, 1), N(s, 2), StateOf(N(s, 3)),
      EachOf(EntryOf, At(s, 4)), N(s, 5), N(s, 6), T(s, 7), B(s, 8))
  }

  lemma BindingsRead(bs: seq<DeviceBinding>)
    requires Shaped(List(BindingSchema, false), Each(BindingValue, bs))
    ensures EachOf(BindingOf, Each(BindingValue, bs)) == bs
  {
    forall i | 0 <= i < |bs| ensures BindingOf(BindingValue(bs[i])) == bs[i] {
      assert Each(BindingValue, bs).items[i] == BindingValue(bs[i]);
      BindingReads(bs[i]);
    }
    EachReads(BindingValue, BindingOf, bs);
  }

  lemma PlanListsRead(p: PlacementPlan)
    ensures EachOf(ClaimOf, Each(ClaimValue, p.claims)) == p.claims
    ensures EachOf(RankFactorOf, Each(FactorValue, p.selectedFactors)) == p.selectedFactors
    ensures EachOf(RejectedOf, Each(RejectedValue, p.rejectedAlternatives)) == p.rejectedAlternatives
    ensures EachOf(EntryOf, Each(EntryValue, p.stateHistory)) == p.stateHistory
  {
    EachReads(ClaimValue, ClaimOf, p.claims);
    EachReads(FactorValue, RankFactorOf, p.selectedFactors);
    EachReads(RejectedValue, RejectedOf, p.rejectedAlternatives);
    EachReads(EntryValue, EntryOf, p.stateHistory);
  }

  lemma PlanParts(p: PlacementPlan)
    ensures var v := PlanValue(p);
      && N(v, 0) == p.planId && At(v, 1) == OriginValue(p) && At(v, 2) == Nums(p.fallbackCandidates)
      && At(v, 3) == Each(BindingValue, p.bindings) && At(v, 4) == Each(ClaimValue, p.claims)
      && At(v, 5) == MovementValue(p) && At(v, 6) == Each(FactorValue, p.selectedFactors)
      && At(v, 7) == Each(RejectedValue, p.rejectedAlternatives) && At(v, 8) == StandingValue(p)
  {}

  lemma OriginRead(p: PlacementPlan)
    ensures var v := OriginValue(p);
      && N(v, 0) == p.planGeneration && N(v, 1) == p.requestId && N(v, 2) == p.requestGeneration
      && N(v, 3) == p.selectedCandidate && N(v, 4) == p.selectedCandidateGeneration
    ensures var v := MovementValue(p);
      && N(v, 0) == p.communicationPlan && T(v, 1) == p.communicationPlanId && N(v, 2) == p.movementBytes
      && T(v, 3) == p.movementSource && B(v, 4) == p.residencyPrerequisite
  {
    var xs := [p.planGeneration, p.requestId, p.requestGeneration, p.selectedCandidate, p.selectedCandidateGeneration];
    NumsRead(xs);
  }

  lemma StandingRead(p: PlacementPlan)
    ensures var v := StandingValue(p);
      && FingerprintOf(At(v, 0)) == p.generations && N(v, 1) == p.policyGeneration && N(v, 2) == p.authorityGeneration
      && StateOf(N(v, 3)) == p.state && At(v, 4) == Each(EntryValue, p.stateHistory) && N(v, 5) == p.coordinatorEpoch
      && N(v, 6) == p.supersededBy && T(v, 7) == p.supersessionReason && B(v, 8) == p.hasCommitmentEvidence
  {
    FingerprintReads(p.generations);
    assert At(StandingValue(p), 0) == FingerprintValue(p.generations);
  }

  /** A plan survives whole. */
  lemma PlanReads(p: PlacementPlan)
    requires Shaped(PlanSchema, PlanValue(p))
    ensures PlanOf(PlanValue(p)) == p
  {
    PlanBindingsShaped(p);
    BindingsRead(p.bindings);
    PlanListsRead(p);
    NumsRead(p.fallbackCandidates);
    PlanParts(p);
    OriginRead(p);
    StandingRead(p);
  }

  lemma PlanBindingsShaped(p: PlacementPlan)
    requires Shaped(PlanSchema, PlanValue(p))
    ensures Shaped(List(BindingSchema, false), Each(BindingValue, p.bindings))
  {
    assert Shaped(PlanSchema.fields[3], PlanValue(p).items[3]);
  }
}
