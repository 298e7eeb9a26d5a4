/** A decoded record written again: the bytes are those that were read, unless a boolean among them was neither 0
    nor 1. */
module Canonical {
  import opened Types
  import opened Ranking
  import opened Coding
  import opened Codes
  import opened Wire
  import opened Records
  import opened CandidateRecords

  lemma FieldFits(sc: Schema, v: Value, i: nat)
    requires sc.Record? && Fits(sc, v) && i < |sc.fields|
    ensures v.Tuple? && |v.items| == |sc.fields| && Fits(sc.fields[i], v.items[i])
  {}

  // --- numbers and lists ----------------------------------------------------------------------

  lemma NumbersWrite(k: nat, limit: nat, unique: bool, v: Value)
    requires Fits(List(Word(k, limit), unique), v)
    ensures Nums(NumsOf(v)) == v
  {
    forall i | 0 <= i < |v.items| ensures Num(NumsOf(v)[i]) == v.items[i] {
      assert Shaped(Word(k, limit), v.items[i]);
    }
    assert Nums(NumsOf(v)).items == v.items;
  }

  lemma WordsWrite(n: nat, v: Value)
    requires Fits(Words(n), v)
    ensures v.Tuple? && |v.items| == n && forall i :: 0 <= i < n ==> v.items[i] == Num(N(v, i))
  {
    forall i | 0 <= i < n ensures v.items[i] == Num(N(v, i)) { FieldFits(Words(n), v, i); }
  }

  lemma ListWrites<A>(elem: Schema, unique: bool, f: A -> Value, g: Value -> A, v: Value)
    requires Fits(List(elem, unique), v)
    requires forall x :: Fits(elem, x) ==> f(g(x)) == x
    ensures Each(f, EachOf(g, v)) == v
  {
    forall i | 0 <= i < |v.items| ensures f(g(v.items[i])) == v.items[i] {
      assert Fits(elem, v.items[i]);
    }
    assert Each(f, EachOf(g, v)).items == v.items;
  }

  // A number that fits 32 bits is read as a signed one and written back.
  lemma SignedWrites(n: nat)
    requires n < U32_LIMIT
    ensures Signed(FromSigned(n)) == Num(n)
  {}

  // --- demand and request ---------------------------------------------------------------------

  lemma AcceleratorWrites(v: Value)
    requires Fits(AcceleratorSchema, v)
    ensures AcceleratorValue(AcceleratorOf(v)) == v
  {
    forall i | 0 <= i < 8 ensures Fits(AcceleratorSchema.fields[i], v.items[i]) { FieldFits(AcceleratorSchema, v, i); }
    assert AcceleratorValue(AcceleratorOf(v)).items == v.items;
  }

  lemma QuantitiesWrite(v: Value, d: DemandProfile)
    requires Fits(CapacitySchema, v)
    requires d.cpuRequired == N(v, 0) && d.memory == MemoryRequirement(N(v, 1), N(v, 2))
    requires d.storage == StorageRequirement(N(v, 3), B(v, 4)) && d.network == NetworkRequirement(N(v, 5), B(v, 6))
    ensures CapacityValue(d) == v
  {
    forall i | 0 <= i < 7 ensures Fits(CapacitySchema.fields[i], v.items[i]) { FieldFits(CapacitySchema, v, i); }
    assert CapacityValue(d).items == v.items;
  }

  lemma ResidencyWrites(v: Value)
    requires Fits(ResidencySchema, v)
    ensures ResidencyValue(ResidencyRequirement(B(v, 0), B(v, 1), B(v, 2), T(v, 3), T(v, 4), T(v, 5))) == v
  {
    forall i | 0 <= i < 6 ensures Fits(ResidencySchema.fields[i], v.items[i]) { FieldFits(ResidencySchema, v, i); }
    assert ResidencyValue(ResidencyRequirement(B(v, 0), B(v, 1), B(v, 2), T(v, 3), T(v, 4), T(v, 5))).items == v.items;
  }

  lemma ObjectiveWrites(v: Value, d: DemandProfile)
    requires Fits(ObjectiveSchema, v)
    requires d.expectedExecutionDuration == N(v, 0) && d.latencySensitivity == N(v, 1) && d.throughputObjective == N(v, 2)
    requires d.externalPriority == FromSigned(N(v, 3)) && d.externalPriorityOrdinal == N(v, 4) && d.maximumMovementCost == N(v, 6)
    requires d.sloGeneration == N(At(v, 5), 0) && d.policyGeneration == N(At(v, 5), 1) && d.priorityGeneration == N(At(v, 5), 2)
    ensures ObjectiveValue(d) == v
  {
    forall i | 0 <= i < 7 ensures Fits(ObjectiveSchema.fields[i], v.items[i]) { FieldFits(ObjectiveSchema, v, i); }
    Widths();
    SignedWrites(N(v, 3));
    WordsWrite(3, v.items[5]);
    assert Nums([d.sloGeneration, d.policyGeneration, d.priorityGeneration]).items == v.items[5].items;
    assert ObjectiveValue(d).items == v.items;
  }

  lemma TrafficWrites(v: Value)
    requires Fits(Record([Code(8), U64]), v)
    ensures Tuple([Num(N(v, 0)), Num(N(v, 1))]) == v
  {
    FieldFits(Record([Code(8), U64]), v, 0);
    FieldFits(Record([Code(8), U64]), v, 1);
    assert Tuple([Num(N(v, 0)), Num(N(v, 1))]).items == v.items;
  }

  lemma DomainsWrite(v: Value)
    requires Fits(Record([U32, Flag, Flag]), v)
    ensures Tuple([Num(N(v, 0)), Bit(B(v, 1)), Bit(B(v, 2))]) == v
  {
    FieldFits(Record([U32, Flag, Flag]), v, 0);
    FieldFits(Record([U32, Flag, Flag]), v, 1);
    FieldFits(Record([U32, Flag, Flag]), v, 2);
    assert Tuple([Num(N(v, 0)), Bit(B(v, 1)), Bit(B(v, 2))]).items == v.items;
  }

  function DemandIds(d: DemandProfile): seq<nat> {
    [d.demandId, d.demandGeneration, d.workloadId, d.workloadGeneration]
  }

  lemma DemandIdsWrite(v: Value)
    requires Fits(DemandSchema, v)
    ensures v.Tuple? && |v.items| == |DemandFields.fields| && v.items[0] == Nums(DemandIds(DemandOf(v)))
  {
    FieldFits(DemandFields, v, 0);
    var ids := v.items[0];
    WordsWrite(4, ids);
    assert Nums(DemandIds(DemandOf(v))).items == ids.items;
  }

  lemma DemandDevicesWrite(v: Value)
    requires Fits(DemandSchema, v)
    ensures v.Tuple? && |v.items| == |DemandFields.fields| && v.items[1] == AcceleratorValue(DemandOf(v).accelerator)
  {
    FieldFits(DemandFields, v, 1);
    AcceleratorWrites(v.items[1]);
  }

  lemma DemandQuantitiesWrite(v: Value)
    requires Fits(DemandSchema, v)
    ensures v.Tuple? && |v.items| == |DemandFields.fields| && v.items[2] == CapacityValue(DemandOf(v))
  {
    FieldFits(DemandFields, v, 2);
    QuantitiesWrite(v.items[2], DemandOf(v));
  }

  lemma DemandTrafficWrites(v: Value)
    requires Fits(DemandSchema, v)
    ensures v.Tuple? && |v.items| == |DemandFields.fields| && v.items[3] == Tuple([Num(DemandOf(v).communication), Num(DemandOf(v).communicationBytes)])
  {
    FieldFits(DemandFields, v, 3);
    TrafficWrites(v.items[3]);
  }

  lemma DemandResidencyWrites(v: Value)
    requires Fits(DemandSchema, v)
    ensures v.Tuple? && |v.items| == |DemandFields.fields| && v.items[4] == ResidencyValue(DemandOf(v).residency)
  {
    FieldFits(DemandFields, v, 4);
    ResidencyWrites(v.items[4]);
  }

  function DomainsValue(f: FailureDomainConstraint): Value {
    Tuple([Num(f.minimumDistinctDomains), Bit(f.avoidColocation), Bit(f.avoidSingleRoot)])
  }

  lemma DemandDomainsWrite(v: Value)
    requires Fits(DemandSchema, v)
    ensures v.Tuple? && |v.items| == |DemandFields.fields| && v.items[5] == DomainsValue(DemandOf(v).failureDomains)
  {
    FieldFits(DemandFields, v, 5);
    DomainsWrite(v.items[5]);
  }

  lemma DemandObjectiveWrites(v: Value)
    requires Fits(DemandSchema, v)
    ensures v.Tuple? && |v.items| == |DemandFields.fields| && v.items[6] == ObjectiveValue(DemandOf(v))
  {
    FieldFits(DemandFields, v, 6);
    ObjectiveWrites(v.items[6], DemandOf(v));
  }

  lemma DemandLocalitiesWrite(v: Value)
    requires Fits(DemandSchema, v)
    ensures v.Tuple? && |v.items| == |DemandFields.fields| && v.items[7] == Nums(DemandOf(v).fallbackLocalities)
  {
    FieldFits(DemandFields, v, 7);
    NumbersWrite(1, 4, false, v.items[7]);
  }

  lemma DemandProvenanceWrites(v: Value)
    requires Fits(DemandSchema, v)
    ensures v.Tuple? && |v.items| == |DemandFields.fields| && v.items[8] == Num(ProvenanceCode(DemandOf(v).provenance))
  {
    FieldFits(DemandFields, v, 8);
  }

  lemma DemandItemsWrite(v: Value, d: DemandProfile)
    requires v.Tuple? && |v.items| == 9 && v.items[0] == Nums(DemandIds(d)) && v.items[1] == AcceleratorValue(d.accelerator)
    requires v.items[2] == CapacityValue(d) && v.items[3] == Tuple([Num(d.communication), Num(d.communicationBytes)])
    requires v.items[4] == ResidencyValue(d.residency) && v.items[5] == DomainsValue(d.failureDomains)
    requires v.items[6] == ObjectiveValue(d) && v.items[7] == Nums(d.fallbackLocalities)
    requires v.items[8] == Num(ProvenanceCode(d.provenance))
    ensures DemandValue(d) == v
  {
    assert DemandValue(d).items == v.items;
  }

  lemma DemandWrites(v: Value)
    requires Fits(DemandSchema, v)
    ensures DemandValue(DemandOf(v)) == v
  {
    DemandIdsWrite(v);
    DemandDevicesWrite(v);
    DemandQuantitiesWrite(v);
    DemandTrafficWrites(v);
    DemandResidencyWrites(v);
    DemandDomainsWrite(v);
    DemandObjectiveWrites(v);
    DemandLocalitiesWrite(v);
    DemandProvenanceWrites(v);
    DemandItemsWrite(v, DemandOf(v));
  }

  lemma RequestNumbersWrite(v: Value)
    requires Fits(RequestSchema, v)
    ensures v.Tuple? && |v.items| == 7 && forall i :: 0 <= i < 6 ==> v.items[i] == Num(N(v, i))
  {
    forall i | 0 <= i < 6 ensures v.items[i] == Num(N(v, i)) { FieldFits(RequestSchema, v, i); }
  }

  lemma RequestDemandWrites(v: Value)
    requires Fits(RequestSchema, v)
    ensures v.Tuple? && |v.items| == 7 && v.items[6] == DemandValue(DemandOf(At(v, 6)))
  {
    FieldFits(RequestSchema, v, 6);
    DemandWrites(v.items[6]);
  }

  lemma RequestWrites(v: Value)
    requires Fits(RequestSchema, v)
    ensures RequestValue(RequestOf(v)) == v
  {
    RequestNumbersWrite(v);
    RequestDemandWrites(v);
    assert RequestValue(RequestOf(v)).items == v.items;
  }

  // --- plan -----------------------------------------------------------------------------------

  lemma BindingIdsWrite(v: Value)
    requires Fits(BindingSchema, v)
    ensures v.Tuple? && |v.items| == 8
    ensures var b := BindingOf(v);
      && v.items[0] == Nums([b.deviceId, b.deviceGeneration, b.resourceId, b.resourceGeneration, b.nodeId, b.nodeGeneration,
                             b.memoryDomainId, b.memoryDomainGeneration])
      && v.items[1] == Nums([b.nicId, b.nicGeneration, b.storageId, b.storageGeneration, b.cpuDomainId, b.cpuDomainGeneration])
  {
    var b := BindingOf(v);
    FieldFits(BindingSchema, v, 0);
    FieldFits(BindingSchema, v, 1);
    WordsWrite(8, v.items[0]);
    WordsWrite(6, v.items[1]);
    assert Nums([b.deviceId, b.deviceGeneration, b.resourceId, b.resourceGeneration, b.nodeId, b.nodeGeneration,
                 b.memoryDomainId, b.memoryDomainGeneration]).items == v.items[0].items;
    assert Nums([b.nicId, b.nicGeneration, b.storageId, b.storageGeneration, b.cpuDomainId, b.cpuDomainGeneration]).items
      == v.items[1].items;
  }

  lemma BindingRestWrites(v: Value)
    requires Fits(BindingSchema, v)
    ensures v.Tuple? && |v.items| == 8
    ensures var b := BindingOf(v);
      && v.items[2] == Chars(b.pcieRoot) && v.items[3] == Bit(b.sharesPcieRoot) && v.items[4] == Num(ClassCode(b.capability))
      && v.items[5] == Signed(b.cudaCompatibility) && v.items[6] == Bit(b.capabilityCurrent)
      && v.items[7] == Num(b.capabilityGeneration)
  {
    forall i | 2 <= i < 8 ensures Fits(BindingSchema.fields[i], v.items[i]) { FieldFits(BindingSchema, v, i); }
    Widths();
    SignedWrites(N(v, 5));
  }

  lemma BindingWrites(v: Value)
    requires Fits(BindingSchema, v)
    ensures BindingValue(BindingOf(v)) == v
  {
    BindingIdsWrite(v);
    BindingRestWrites(v);
    assert BindingValue(BindingOf(v)).items == v.items;
  }

  lemma ClaimWrites(v: Value)
    requires Fits(ClaimSchema, v)
    ensures ClaimValue(ClaimOf(v)) == v
  {
    forall i | 0 <= i < 5 ensures Fits(ClaimSchema.fields[i], v.items[i]) { FieldFits(ClaimSchema, v, i); }
    assert ClaimValue(ClaimOf(v)).items == v.items;
  }

  lemma FactorCodeWrites(n: nat)
    requires n <= 26
    ensures FactorCode(FactorKindOf(n)) == n
  {
    NoKindTwice(n);
  }

  lemma FactorWrites(v: Value)
    requires Fits(FactorSchema, v)
    ensures FactorValue(RankFactorOf(v)) == v
  {
    assert Fits(FactorFields, v);
    forall i | 0 <= i < 5 ensures Fits(FactorFields.fields[i], v.items[i]) { FieldFits(FactorFields, v, i); }
    FactorCodeWrites(N(v, 0));
    assert FactorValue(RankFactorOf(v)).items == v.items;
  }

  lemma RejectedWrites(v: Value)
    requires Fits(RejectedSchema, v)
    ensures RejectedValue(RejectedOf(v)) == v
  {
    forall i | 0 <= i < 4 ensures Fits(RejectedSchema.fields[i], v.items[i]) { FieldFits(RejectedSchema, v, i); }
    assert RejectedValue(RejectedOf(v)).items == v.items;
  }

  lemma EntryWrites(v: Value)
    requires Fits(EntrySchema, v)
    ensures EntryValue(EntryOf(v)) == v
  {
    forall i | 0 <= i < 2 ensures Fits(EntrySchema.fields[i], v.items[i]) { FieldFits(EntrySchema, v, i); }
    assert EntryValue(EntryOf(v)).items == v.items;
  }

  lemma FingerprintWrites(v: Value)
    requires Fits(FingerprintSchema, v)
    ensures FingerprintValue(FingerprintOf(v)) == v
  {
    var g := FingerprintOf(v);
    FieldFits(FingerprintSchema, v, 0);
    FieldFits(FingerprintSchema, v, 1);
    WordsWrite(6, v.items[0]);
    WordsWrite(6, v.items[1]);
    assert Nums([g.topology, g.capacity, g.reservation, g.congestion, g.capability, g.health]).items == v.items[0].items;
    assert Nums([g.residency, g.communicationPlan, g.policy, g.resource, g.dependency, g.coordinatorEpoch]).items
      == v.items[1].items;
    assert FingerprintValue(g).items == v.items;
  }

  lemma OriginWrites(v: Value, p: PlacementPlan)
    requires Fits(OriginSchema, v) && p.planGeneration == N(v, 0) && p.requestId == N(v, 1) && p.requestGeneration == N(v, 2)
    requires p.selectedCandidate == N(v, 3) && p.selectedCandidateGeneration == N(v, 4)
    ensures OriginValue(p) == v
  {
    WordsWrite(5, v);
    assert OriginValue(p).items == v.items;
  }

  lemma MovementWrites(v: Value, p: PlacementPlan)
    requires Fits(MovementSchema, v) && p.communicationPlan == N(v, 0) && p.communicationPlanId == T(v, 1)
    requires p.movementBytes == N(v, 2) && p.movementSource == T(v, 3) && p.residencyPrerequisite == B(v, 4)
    ensures MovementValue(p) == v
  {
    forall i | 0 <= i < 5 ensures Fits(MovementSchema.fields[i], v.items[i]) { FieldFits(MovementSchema, v, i); }
    assert MovementValue(p).items == v.items;
  }

  lemma HistoryWrites(v: Value)
    requires Fits(List(EntrySchema, false), v)
    ensures Each(EntryValue, EachOf(EntryOf, v)) == v
  {
    forall x | Fits(EntrySchema, x) ensures EntryValue(EntryOf(x)) == x { EntryWrites(x); }
    ListWrites(EntrySchema, false, EntryValue, EntryOf, v);
  }

  // p stands as v says.
  ghost predicate StandsAs(p: PlacementPlan, v: Value) {
    && p.generations == FingerprintOf(At(v, 0)) && p.policyGeneration == N(v, 1) && p.authorityGeneration == N(v, 2)
    && p.state == StateOf(N(v, 3)) && p.stateHistory == EachOf(EntryOf, At(v, 4)) && p.coordinatorEpoch == N(v, 5)
    && p.supersededBy == N(v, 6) && p.supersessionReason == T(v, 7) && p.hasCommitmentEvidence == B(v, 8)
  }

  lemma StandingListsWrite(v: Value)
    requires Fits(StandingSchema, v)
    ensures v.Tuple? && |v.items| == 9 && v.items[0] == FingerprintValue(FingerprintOf(At(v, 0)))
    ensures v.items[4] == Each(EntryValue, EachOf(EntryOf, At(v, 4)))
  {
    FieldFits(StandingSchema, v, 0);
    FieldFits(StandingSchema, v, 4);
    FingerprintWrites(v.items[0]);
    HistoryWrites(v.items[4]);
  }

  lemma StandingNumbersWrite(v: Value)
    requires Fits(StandingSchema, v)
    ensures v.Tuple? && |v.items| == 9 && v.items[1] == Num(N(v, 1)) && v.items[2] == Num(N(v, 2))
    ensures v.items[3] == Num(StateCode(StateOf(N(v, 3)))) && v.items[5] == Num(N(v, 5)) && v.items[6] == Num(N(v, 6))
    ensures v.items[7] == Chars(T(v, 7)) && v.items[8] == Bit(B(v, 8))
  {
    FieldFits(StandingSchema, v, 1);
    FieldFits(StandingSchema, v, 2);
    FieldFits(StandingSchema, v, 3);
    FieldFits(StandingSchema, v, 5);
    FieldFits(StandingSchema, v, 6);
    FieldFits(StandingSchema, v, 7);
    FieldFits(StandingSchema, v, 8);
  }

  lemma StandingWrites(v: Value, p: PlacementPlan)
    requires Fits(StandingSchema, v) && StandsAs(p, v)
    ensures StandingValue(p) == v
  {
    StandingListsWrite(v);
    StandingNumbersWrite(v);
    assert StandingValue(p).items == v.items;
  }

  lemma BindingsWrite(v: Value)
    requires Fits(List(BindingSchema, false), v)
    ensures Each(BindingValue, EachOf(BindingOf, v)) == v
  {
    forall x | Fits(BindingSchema, x) ensures BindingValue(BindingOf(x)) == x { BindingWrites(x); }
    ListWrites(BindingSchema, false, BindingValue, BindingOf, v);
  }

  lemma ClaimsWrite(v: Value)
    requires Fits(List(ClaimSchema, false), v)
    ensures Each(ClaimValue, EachOf(ClaimOf, v)) == v
  {
    forall x | Fits(ClaimSchema, x) ensures ClaimValue(ClaimOf(x)) == x { ClaimWrites(x); }
    ListWrites(ClaimSchema, false, ClaimValue, ClaimOf, v);
  }

  lemma FactorsWrite(v: Value)
    requires Fits(List(FactorSchema, false), v)
    ensures Each(FactorValue, EachOf(RankFactorOf, v)) == v
  {
    forall x | Fits(FactorSchema, x) ensures FactorValue(RankFactorOf(x)) == x { FactorWrites(x); }
    ListWrites(FactorSchema, false, FactorValue, RankFactorOf, v);
  }

  lemma RejectionsWrite(v: Value)
    requires Fits(List(RejectedSchema, false), v)
    ensures Each(RejectedValue, EachOf(RejectedOf, v)) == v
  {
    forall x | Fits(RejectedSchema, x) ensures RejectedValue(RejectedOf(x)) == x { RejectedWrites(x); }
    ListWrites(RejectedSchema, false, RejectedValue, RejectedOf, v);
  }

  lemma PlanIdWrites(v: Value)
    requires Fits(PlanSchema, v)
    ensures v.Tuple? && |v.items| == |PlanSchema.fields| && v.items[0] == Num(PlanOf(v).planId)
  {
    FieldFits(PlanSchema, v, 0);
  }

  lemma PlanOriginWrites(v: Value)
    requires Fits(PlanSchema, v)
    ensures v.Tuple? && |v.items| == |PlanSchema.fields| && v.items[1] == OriginValue(PlanOf(v))
  {
    FieldFits(PlanSchema, v, 1);
    OriginWrites(v.items[1], PlanOf(v));
  }

  lemma PlanFallbacksWrite(v: Value)
    requires Fits(PlanSchema, v)
    ensures v.Tuple? && |v.items| == |PlanSchema.fields| && v.items[2] == Nums(PlanOf(v).fallbackCandidates)
  {
    FieldFits(PlanSchema, v, 2);
    NumbersWrite(8, U64_LIMIT - 1, false, v.items[2]);
  }

  lemma PlanBindingsWrite(v: Value)
    requires Fits(PlanSchema, v)
    ensures v.Tuple? && |v.items| == |PlanSchema.fields| && v.items[3] == Each(BindingValue, PlanOf(v).bindings)
  {
    FieldFits(PlanSchema, v, 3);
    BindingsWrite(v.items[3]);
  }

  lemma PlanClaimsWrite(v: Value)
    requires Fits(PlanSchema, v)
    ensures v.Tuple? && |v.items| == |PlanSchema.fields| && v.items[4] == Each(ClaimValue, PlanOf(v).claims)
  {
    FieldFits(PlanSchema, v, 4);
    ClaimsWrite(v.items[4]);
  }

  lemma PlanMovementWrites(v: Value)
    requires Fits(PlanSchema, v)
    ensures v.Tuple? && |v.items| == |PlanSchema.fields| && v.items[5] == MovementValue(PlanOf(v))
  {
    FieldFits(PlanSchema, v, 5);
    MovementWrites(v.items[5], PlanOf(v));
  }

  lemma PlanFactorsWrite(v: Value)
    requires Fits(PlanSchema, v)
    ensures v.Tuple? && |v.items| == |PlanSchema.fields| && v.items[6] == Each(FactorValue, PlanOf(v).selectedFactors)
  {
    FieldFits(PlanSchema, v, 6);
    FactorsWrite(v.items[6]);
  }

  lemma PlanRejectionsWrite(v: Value)
    requires Fits(PlanSchema, v)
    ensures v.Tuple? && |v.items| == |PlanSchema.fields| && v.items[7] == Each(RejectedValue, PlanOf(v).rejectedAlternatives)
  {
    FieldFits(PlanSchema, v, 7);
    RejectionsWrite(v.items[7]);
  }

  lemma PlanStandingWrites(v: Value)
    requires Fits(PlanSchema, v)
    ensures v.Tuple? && |v.items| == |PlanSchema.fields| && v.items[8] == StandingValue(PlanOf(v))
  {
    FieldFits(PlanSchema, v, 8);
    StandingWrites(v.items[8], PlanOf(v));
  }

  lemma PlanItemsWrite(v: Value, p: PlacementPlan)
    requires v.Tuple? && |v.items| == 9 && v.items[0] == Num(p.planId) && v.items[1] == OriginValue(p)
    requires v.items[2] == Nums(p.fallbackCandidates) && v.items[3] == Each(BindingValue, p.bindings)
    requires v.items[4] == Each(ClaimValue, p.claims) && v.items[5] == MovementValue(p)
    requires v.items[6] == Each(FactorValue, p.selectedFactors)
    requires v.items[7] == Each(RejectedValue, p.rejectedAlternatives) && v.items[8] == StandingValue(p)
    ensures PlanValue(p) == v
  {
    assert PlanValue(p).items == v.items;
  }

  lemma PlanWrites(v: Value)
    requires Fits(PlanSchema, v)
    ensures PlanValue(PlanOf(v)) == v
  {
    PlanIdWrites(v);
    PlanOriginWrites(v);
    PlanFallbacksWrite(v);
    PlanBindingsWrite(v);
    PlanClaimsWrite(v);
    PlanMovementWrites(v);
    PlanFactorsWrite(v);
    PlanRejectionsWrite(v);
    PlanStandingWrites(v);
    PlanItemsWrite(v, PlanOf(v));
  }

  // --- candidate ------------------------------------------------------------------------------

  lemma CapacityWrites(v: Value)
    requires Fits(CapacityEvidenceSchema, v)
    ensures CapacityEvidenceValue(CapacityEvidenceOf(v)) == v
  {
    var c := CapacityEvidenceOf(v);
    forall i | 0 <= i < 6 ensures Fits(CapacityEvidenceSchema.fields[i], v.items[i]) { FieldFits(CapacityEvidenceSchema, v, i); }
    WordsWrite(6, v.items[0]);
    assert Nums([c.generation, c.vramTotal, c.vramUsed, c.vramAvailable, c.hostMemoryAvailable, c.pinnedMemoryAvailable]).items
      == v.items[0].items;
    assert CapacityEvidenceValue(c).items == v.items;
  }

  lemma HealthWrites(v: Value)
    requires Fits(HealthSchema, v)
    ensures HealthValue(HealthOf(v)) == v
  {
    forall i | 0 <= i < 5 ensures Fits(HealthSchema.fields[i], v.items[i]) { FieldFits(HealthSchema, v, i); }
    assert HealthValue(HealthOf(v)).items == v.items;
  }

  lemma ReservationWrites(v: Value)
    requires Fits(ReservationSchema, v)
    ensures ReservationValue(ReservationOf(v)) == v
  {
    forall i | 0 <= i < 5 ensures Fits(ReservationSchema.fields[i], v.items[i]) { FieldFits(ReservationSchema, v, i); }
    assert ReservationValue(ReservationOf(v)).items == v.items;
  }

  lemma CongestionWrites(v: Value)
    requires Fits(CongestionSchema, v)
    ensures CongestionValue(CongestionOf(v)) == v
  {
    forall i | 0 <= i < 6 ensures Fits(CongestionSchema.fields[i], v.items[i]) { FieldFits(CongestionSchema, v, i); }
    assert CongestionValue(CongestionOf(v)).items == v.items;
  }

  lemma LocalityWrites(v: Value)
    requires Fits(LocalitySchema, v)
    ensures LocalityValue(LocalityOf(v)) == v
  {
    forall i | 0 <= i < 8 ensures Fits(LocalitySchema.fields[i], v.items[i]) { FieldFits(LocalitySchema, v, i); }
    assert LocalityValue(LocalityOf(v)).items == v.items;
  }

  lemma CommunicationWrites(v: Value)
    requires Fits(CommunicationSchema, v)
    ensures CommunicationValue(CommunicationOf(v)) == v
  {
    forall i | 0 <= i < 7 ensures Fits(CommunicationSchema.fields[i], v.items[i]) { FieldFits(CommunicationSchema, v, i); }
    assert CommunicationValue(CommunicationOf(v)).items == v.items;
  }

  lemma ResidentWrites(v: Value)
    requires Fits(ResidencyEvidenceSchema, v)
    ensures ResidencyEvidenceValue(ResidencyEvidenceOf(v)) == v
  {
    forall i | 0 <= i < 7 ensures Fits(ResidencyEvidenceSchema.fields[i], v.items[i]) { FieldFits(ResidencyEvidenceSchema, v, i); }
    assert ResidencyEvidenceValue(ResidencyEvidenceOf(v)).items == v.items;
  }

  const StateSchema: Schema := Record([CapacityEvidenceSchema, HealthSchema, ReservationSchema, CongestionSchema])

  const PlaceSchema: Schema := Record([LocalitySchema, CommunicationSchema, ResidencyEvidenceSchema])

  lemma StateCapacityWrites(v: Value)
    requires Fits(StateSchema, v)
    ensures v.Tuple? && |v.items| == |StateSchema.fields| && v.items[0] == CapacityEvidenceValue(CapacityEvidenceOf(At(v, 0)))
  {
    FieldFits(StateSchema, v, 0);
    CapacityWrites(v.items[0]);
  }

  lemma StateHealthWrites(v: Value)
    requires Fits(StateSchema, v)
    ensures v.Tuple? && |v.items| == |StateSchema.fields| && v.items[1] == HealthValue(HealthOf(At(v, 1)))
  {
    FieldFits(StateSchema, v, 1);
    HealthWrites(v.items[1]);
  }

  lemma StateReservationWrites(v: Value)
    requires Fits(StateSchema, v)
    ensures v.Tuple? && |v.items| == |StateSchema.fields| && v.items[2] == ReservationValue(ReservationOf(At(v, 2)))
  {
    FieldFits(StateSchema, v, 2);
    ReservationWrites(v.items[2]);
  }

  lemma StateCongestionWrites(v: Value)
    requires Fits(StateSchema, v)
    ensures v.Tuple? && |v.items| == |StateSchema.fields| && v.items[3] == CongestionValue(CongestionOf(At(v, 3)))
  {
    FieldFits(StateSchema, v, 3);
    CongestionWrites(v.items[3]);
  }

  lemma StateWrites(v: Value, c: Candidate)
    requires Fits(StateSchema, v)
    requires c.capacity == CapacityEvidenceOf(At(v, 0)) && c.health == HealthOf(At(v, 1))
    requires c.reservation == ReservationOf(At(v, 2)) && c.congestion == CongestionOf(At(v, 3))
    ensures Tuple([CapacityEvidenceValue(c.capacity), HealthValue(c.health), ReservationValue(c.reservation),
                   CongestionValue(c.congestion)]) == v
  {
    StateCapacityWrites(v);
    StateHealthWrites(v);
    StateReservationWrites(v);
    StateCongestionWrites(v);
    assert [v.items[0], v.items[1], v.items[2], v.items[3]] == v.items;
  }

  lemma PlaceLocalityWrites(v: Value)
    requires Fits(PlaceSchema, v)
    ensures v.Tuple? && |v.items| == |PlaceSchema.fields| && v.items[0] == LocalityValue(LocalityOf(At(v, 0)))
  {
    FieldFits(PlaceSchema, v, 0);
    LocalityWrites(v.items[0]);
  }

  lemma PlaceCommunicationWrites(v: Value)
    requires Fits(PlaceSchema, v)
    ensures v.Tuple? && |v.items| == |PlaceSchema.fields| && v.items[1] == CommunicationValue(CommunicationOf(At(v, 1)))
  {
    FieldFits(PlaceSchema, v, 1);
    CommunicationWrites(v.items[1]);
  }

  lemma PlaceResidentWrites(v: Value)
    requires Fits(PlaceSchema, v)
    ensures v.Tuple? && |v.items| == |PlaceSchema.fields| && v.items[2] == ResidencyEvidenceValue(ResidencyEvidenceOf(At(v, 2)))
  {
    FieldFits(PlaceSchema, v, 2);
    ResidentWrites(v.items[2]);
  }

  lemma PlaceWrites(v: Value, c: Candidate)
    requires Fits(PlaceSchema, v) && c.locality == LocalityOf(At(v, 0)) && c.communication == CommunicationOf(At(v, 1))
    requires c.residency == ResidencyEvidenceOf(At(v, 2))
    ensures Tuple([LocalityValue(c.locality), CommunicationValue(c.communication), ResidencyEvidenceValue(c.residency)]) == v
  {
    PlaceLocalityWrites(v);
    PlaceCommunicationWrites(v);
    PlaceResidentWrites(v);
    assert [v.items[0], v.items[1], v.items[2]] == v.items;
  }

  lemma CandidateIdsWrite(v: Value)
    requires Fits(CandidateSchema, v)
    ensures v.Tuple? && |v.items| == |CandidateSchema.fields| && v.items[0] == Nums(CandidateIds(CandidateOf(v)))
  {
    FieldFits(CandidateSchema, v, 0);
    WordsWrite(6, v.items[0]);
    assert Nums(CandidateIds(CandidateOf(v))).items == v.items[0].items;
  }

  lemma CandidateProvenanceWrites(v: Value)
    requires Fits(CandidateSchema, v)
    ensures v.Tuple? && |v.items| == |CandidateSchema.fields| && v.items[1] == Num(ProvenanceCode(CandidateOf(v).provenance))
  {
    FieldFits(CandidateSchema, v, 1);
  }

  lemma CandidateBindingsWrite(v: Value)
    requires Fits(CandidateSchema, v)
    ensures v.Tuple? && |v.items| == |CandidateSchema.fields| && v.items[2] == Each(BindingValue, CandidateOf(v).bindings)
  {
    FieldFits(CandidateSchema, v, 2);
    BindingsWrite(v.items[2]);
  }

  // The evidence of a candidate, as the fourth and fifth group of its record hold it.
  ghost predicate StateHeld(v: Value) {
    var c := CandidateOf(v);
    At(v, 3) == Tuple([CapacityEvidenceValue(c.capacity), HealthValue(c.health), ReservationValue(c.reservation),
                       CongestionValue(c.congestion)])
  }

  ghost predicate PlaceHeld(v: Value) {
    var c := CandidateOf(v);
    At(v, 4) == Tuple([LocalityValue(c.locality), CommunicationValue(c.communication), ResidencyEvidenceValue(c.residency)])
  }

  lemma CandidateStateWrites(v: Value)
    requires Fits(CandidateSchema, v)
    ensures v.Tuple? && |v.items| == |CandidateSchema.fields| && StateHeld(v)
  {
    FieldFits(CandidateSchema, v, 3);
    StateWrites(v.items[3], CandidateOf(v));
  }

  lemma CandidatePlaceWrites(v: Value)
    requires Fits(CandidateSchema, v)
    ensures v.Tuple? && |v.items| == |CandidateSchema.fields| && PlaceHeld(v)
  {
    FieldFits(CandidateSchema, v, 4);
    PlaceWrites(v.items[4], CandidateOf(v));
  }

  lemma CandidateRestWrites(v: Value)
    requires Fits(CandidateSchema, v)
    ensures v.Tuple? && |v.items| == 7 && v.items[5] == Num(CandidateOf(v).policyGeneration)
    ensures v.items[6] == Num(CandidateOf(v).memoryMovementCost)
  {
    FieldFits(CandidateSchema, v, 5);
    FieldFits(CandidateSchema, v, 6);
  }

  lemma CandidateItemsWrite(v: Value, c: Candidate)
    requires v.Tuple? && |v.items| == 7 && v.items[0] == Nums(CandidateIds(c)) && v.items[1] == Num(ProvenanceCode(c.provenance))
    requires v.items[2] == Each(BindingValue, c.bindings)
    requires v.items[3] == Tuple([CapacityEvidenceValue(c.capacity), HealthValue(c.health), ReservationValue(c.reservation),
                                  CongestionValue(c.congestion)])
    requires v.items[4] == Tuple([LocalityValue(c.locality), CommunicationValue(c.communication),
                                  ResidencyEvidenceValue(c.residency)])
    requires v.items[5] == Num(c.policyGeneration) && v.items[6] == Num(c.memoryMovementCost)
    ensures CandidateValue(c) == v
  {
    assert CandidateValue(c).items == v.items;
  }

  lemma CandidateWrites(v: Value)
    requires Fits(CandidateSchema, v)
    ensures CandidateValue(CandidateOf(v)) == v
  {
    CandidateIdsWrite(v);
    CandidateProvenanceWrites(v);
    CandidateBindingsWrite(v);
    CandidateStateWrites(v);
    CandidatePlaceWrites(v);
    CandidateRestWrites(v);
    CandidateItemsWrite(v, CandidateOf(v));
  }

  lemma IdentityWrites(v: Value)
    requires Fits(IdentitySchema, v)
    ensures IdentityValue(IdentityOf(v)) == v
  {
    forall i | 0 <= i < 6 ensures Fits(IdentitySchema.fields[i], v.items[i]) { FieldFits(IdentitySchema, v, i); }
    assert IdentityValue(IdentityOf(v)).items == v.items;
  }
}
