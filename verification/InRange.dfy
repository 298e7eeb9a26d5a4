/** Which records the codec can write and read back: those whose numbers fit the source's integer types, whose
    strings have at most 2^20 bytes and whose lists at most 2^20 items. */
module InRange {
  import opened Types
  import opened Coding
  import opened Codes
  import opened Wire
  import opened Records
  import opened CandidateRecords
  import Persistence

  // Of the schema's shape, and within the decoder's bounds.
  ghost predicate Good(sc: Schema, v: Value) {
    Shaped(sc, v) && Passes(Bounds, sc, v)
  }

  predicate Is64(n: nat) {
    n < 0x1_0000_0000_0000_0000
  }

  predicate Is32(n: nat) {
    n < 0x1_0000_0000
  }

  predicate Short(t: Text) {
    |t| <= 1024 * 1024
  }

  predicate IsSigned32(n: int) {
    -0x8000_0000 <= n < 0x8000_0000
  }

  predicate All64(ns: seq<nat>) {
    forall i :: 0 <= i < |ns| ==> Is64(ns[i])
  }

  predicate ListInRange<A>(ok: A -> bool, xs: seq<A>) {
    |xs| <= 1024 * 1024 && forall i :: 0 <= i < |xs| ==> ok(xs[i])
  }

  // --- fields ---------------------------------------------------------------------------------

  lemma GoodU64(n: nat)
    ensures Good(U64, Num(n)) <==> Is64(n)
  {
    Widths();
  }

  lemma GoodU32(n: nat)
    ensures Good(U32, Num(n)) <==> Is32(n)
  {
    Widths();
  }

  lemma GoodCode(k: nat, limit: nat, n: nat)
    requires (k == 1 && limit < 256) || (k == 2 && limit < 256 * 256)
    ensures Good(Word(k, limit), Num(n)) <==> n <= limit
  {
    Widths();
  }

  lemma GoodSigned(n: int)
    ensures Good(U32, Signed(n)) <==> IsSigned32(n)
  {
    Widths();
  }

  lemma GoodPlain(b: bool, t: Text)
    ensures Good(Flag, Bit(b))
    ensures Good(Str, Chars(t)) <==> Short(t)
  {}

  lemma GoodRecord(fs: seq<Schema>, vs: seq<Value>)
    requires |fs| == |vs|
    ensures Good(Record(fs), Tuple(vs)) <==> forall i :: 0 <= i < |fs| ==> Good(fs[i], vs[i])
  {}

  lemma GoodTwo(f0: Schema, f1: Schema,
    v0: Value, v1: Value)
    ensures Good(Record([f0, f1]), Tuple([v0, v1])) <==>
      Good(f0, v0) && Good(f1, v1)
  {
    var fs, vs := [f0, f1], [v0, v1];
    GoodRecord(fs, vs);
    assert fs[0] == f0 && vs[0] == v0 && fs[1] == f1 && vs[1] == v1;
  }

  lemma GoodThree(f0: Schema, f1: Schema, f2: Schema,
    v0: Value, v1: Value, v2: Value)
    ensures Good(Record([f0, f1, f2]), Tuple([v0, v1, v2])) <==>
      Good(f0, v0) && Good(f1, v1) && Good(f2, v2)
  {
    var fs, vs := [f0, f1, f2], [v0, v1, v2];
    GoodRecord(fs, vs);
    assert fs[0] == f0 && vs[0] == v0 && fs[1] == f1 && vs[1] == v1 && fs[2] == f2 && vs[2] == v2;
  }

  lemma GoodCons(f: Schema, v: Value, fs: seq<Schema>, vs: seq<Value>)
    requires |fs| == |vs|
    ensures Good(Record([f] + fs), Tuple([v] + vs)) <==> Good(f, v) && Good(Record(fs), Tuple(vs))
  {
    var gs, us := [f] + fs, [v] + vs;
    GoodRecord(gs, us);
    GoodRecord(fs, vs);
    if Good(f, v) && Good(Record(fs), Tuple(vs)) {
      forall i | 0 <= i < |gs| ensures Good(gs[i], us[i]) {
        if i > 0 { assert gs[i] == fs[i - 1] && us[i] == vs[i - 1]; }
      }
    }
    if Good(Record(gs), Tuple(us)) {
      assert gs[0] == f && us[0] == v;
      forall i | 0 <= i < |fs| ensures Good(fs[i], vs[i]) {
        assert gs[i + 1] == fs[i] && us[i + 1] == vs[i];
      }
    }
  }

  lemma GoodFour(f0: Schema, f1: Schema, f2: Schema, f3: Schema,
    v0: Value, v1: Value, v2: Value, v3: Value)
    ensures Good(Record([f0, f1, f2, f3]), Tuple([v0, v1, v2, v3])) <==>
      Good(f0, v0) && Good(f1, v1) && Good(f2, v2) && Good(f3, v3)
  {
    GoodThree(f1, f2, f3, v1, v2, v3);
    GoodCons(f0, v0, [f1, f2, f3], [v1, v2, v3]);
    assert [f0] + [f1, f2, f3] == [f0, f1, f2, f3];
    assert [v0] + [v1, v2, v3] == [v0, v1, v2, v3];
  }

  lemma GoodFive(f0: Schema, f1: Schema, f2: Schema, f3: Schema, f4: Schema,
    v0: Value, v1: Value, v2: Value, v3: Value, v4: Value)
    ensures Good(Record([f0, f1, f2, f3, f4]), Tuple([v0, v1, v2, v3, v4])) <==>
      Good(f0, v0) && Good(f1, v1) && Good(f2, v2) && Good(f3, v3) && Good(f4, v4)
  {
    GoodFour(f1, f2, f3, f4, v1, v2, v3, v4);
    GoodCons(f0, v0, [f1, f2, f3, f4], [v1, v2, v3, v4]);
    assert [f0] + [f1, f2, f3, f4] == [f0, f1, f2, f3, f4];
    assert [v0] + [v1, v2, v3, v4] == [v0, v1, v2, v3, v4];
  }

  lemma GoodSix(f0: Schema, f1: Schema, f2: Schema, f3: Schema, f4: Schema, f5: Schema,
    v0: Value, v1: Value, v2: Value, v3: Value, v4: Value, v5: Value)
    ensures Good(Record([f0, f1, f2, f3, f4, f5]), Tuple([v0, v1, v2, v3, v4, v5])) <==>
      Good(f0, v0) && Good(f1, v1) && Good(f2, v2) && Good(f3, v3) && Good(f4, v4) && Good(f5, v5)
  {
    GoodFive(f1, f2, f3, f4, f5, v1, v2, v3, v4, v5);
    GoodCons(f0, v0, [f1, f2, f3, f4, f5], [v1, v2, v3, v4, v5]);
    assert [f0] + [f1, f2, f3, f4, f5] == [f0, f1, f2, f3, f4, f5];
    assert [v0] + [v1, v2, v3, v4, v5] == [v0, v1, v2, v3, v4, v5];
  }

  lemma GoodSeven(f0: Schema, f1: Schema, f2: Schema, f3: Schema, f4: Schema, f5: Schema, f6: Schema,
    v0: Value, v1: Value, v2: Value, v3: Value, v4: Value, v5: Value, v6: Value)
    ensures Good(Record([f0, f1, f2, f3, f4, f5, f6]), Tuple([v0, v1, v2, v3, v4, v5, v6])) <==>
      Good(f0, v0) && Good(f1, v1) && Good(f2, v2) && Good(f3, v3)
      && Good(f4, v4) && Good(f5, v5) && Good(f6, v6)
  {
    GoodSix(f1, f2, f3, f4, f5, f6, v1, v2, v3, v4, v5, v6);
    GoodCons(f0, v0, [f1, f2, f3, f4, f5, f6], [v1, v2, v3, v4, v5, v6]);
    assert [f0] + [f1, f2, f3, f4, f5, f6] == [f0, f1, f2, f3, f4, f5, f6];
    assert [v0] + [v1, v2, v3, v4, v5, v6] == [v0, v1, v2, v3, v4, v5, v6];
  }

  lemma GoodEight(f0: Schema, f1: Schema, f2: Schema, f3: Schema, f4: Schema, f5: Schema, f6: Schema, f7: Schema,
    v0: Value, v1: Value, v2: Value, v3: Value, v4: Value, v5: Value, v6: Value, v7: Value)
    ensures Good(Record([f0, f1, f2, f3, f4, f5, f6, f7]), Tuple([v0, v1, v2, v3, v4, v5, v6, v7])) <==>
      Good(f0, v0) && Good(f1, v1) && Good(f2, v2) && Good(f3, v3)
      && Good(f4, v4) && Good(f5, v5) && Good(f6, v6) && Good(f7, v7)
  {
    GoodSeven(f1, f2, f3, f4, f5, f6, f7, v1, v2, v3, v4, v5, v6, v7);
    GoodCons(f0, v0, [f1, f2, f3, f4, f5, f6, f7], [v1, v2, v3, v4, v5, v6, v7]);
    assert [f0] + [f1, f2, f3, f4, f5, f6, f7] == [f0, f1, f2, f3, f4, f5, f6, f7];
    assert [v0] + [v1, v2, v3, v4, v5, v6, v7] == [v0, v1, v2, v3, v4, v5, v6, v7];
  }

  lemma GoodNine(f0: Schema, f1: Schema, f2: Schema, f3: Schema, f4: Schema, f5: Schema, f6: Schema, f7: Schema, f8: Schema,
    v0: Value, v1: Value, v2: Value, v3: Value, v4: Value, v5: Value, v6: Value, v7: Value, v8: Value)
    ensures Good(Record([f0, f1, f2, f3, f4, f5, f6, f7, f8]), Tuple([v0, v1, v2, v3, v4, v5, v6, v7, v8])) <==>
      Good(f0, v0) && Good(f1, v1) && Good(f2, v2) && Good(f3, v3) && Good(f4, v4)
      && Good(f5, v5) && Good(f6, v6) && Good(f7, v7) && Good(f8, v8)
  {
    GoodEight(f1, f2, f3, f4, f5, f6, f7, f8, v1, v2, v3, v4, v5, v6, v7, v8);
    GoodCons(f0, v0, [f1, f2, f3, f4, f5, f6, f7, f8], [v1, v2, v3, v4, v5, v6, v7, v8]);
    assert [f0] + [f1, f2, f3, f4, f5, f6, f7, f8] == [f0, f1, f2, f3, f4, f5, f6, f7, f8];
    assert [v0] + [v1, v2, v3, v4, v5, v6, v7, v8] == [v0, v1, v2, v3, v4, v5, v6, v7, v8];
  }

  lemma GoodWords(ns: seq<nat>)
    ensures Good(Words(|ns|), Nums(ns)) <==> All64(ns)
  {
    Widths();
    GoodRecord(Words(|ns|).fields, Nums(ns).items);
    forall i | 0 <= i < |ns| ensures Good(Words(|ns|).fields[i], Nums(ns).items[i]) <==> Is64(ns[i]) {
      assert Words(|ns|).fields[i] == U64;
    }
  }

  lemma GoodItems(elem: Schema, unique: bool, vs: seq<Value>)
    ensures Good(List(elem, unique), Tuple(vs)) <==> |vs| <= 1024 * 1024 && forall i :: 0 <= i < |vs| ==> Good(elem, vs[i])
  {}

  // `ok` says which records are good.
  lemma GoodList<A>(elem: Schema, unique: bool, f: A -> Value, ok: A -> bool, xs: seq<A>)
    requires forall i :: 0 <= i < |xs| ==> (Good(elem, f(xs[i])) <==> ok(xs[i]))
    ensures Good(List(elem, unique), Each(f, xs)) <==> ListInRange(ok, xs)
  {
    GoodItems(elem, unique, Each(f, xs).items);
    assert forall i :: 0 <= i < |xs| ==> Each(f, xs).items[i] == f(xs[i]);
  }

  lemma GoodNumbers(k: nat, limit: nat, unique: bool, ok: nat -> bool, ns: seq<nat>)
    requires limit < Pow256(k) && forall n: nat :: ok(n) <==> n <= limit
    ensures Good(List(Word(k, limit), unique), Nums(ns)) <==> ListInRange(ok, ns)
  {
    var f := (n: nat) => Num(n);
    assert Nums(ns).items == Each(f, ns).items;
    GoodList(Word(k, limit), unique, f, ok, ns);
  }

  // --- evidence -------------------------------------------------------------------------------

  predicate CapacityInRange(c: CapacityEvidence) {
    && Is64(c.generation) && Is64(c.vramTotal) && Is64(c.vramUsed) && Is64(c.vramAvailable) && Is64(c.hostMemoryAvailable)
    && Is64(c.pinnedMemoryAvailable) && Is32(c.cpuAvailable) && Is64(c.storageAvailable) && Is64(c.nicBandwidthAvailable)
  }

  lemma GoodCapacity(c: CapacityEvidence)
    ensures Good(CapacityEvidenceSchema, CapacityEvidenceValue(c)) <==> CapacityInRange(c)
  {
    var xs := [c.generation, c.vramTotal, c.vramUsed, c.vramAvailable, c.hostMemoryAvailable, c.pinnedMemoryAvailable];
    assert All64(xs) <==> Is64(xs[0]) && Is64(xs[1]) && Is64(xs[2]) && Is64(xs[3]) && Is64(xs[4]) && Is64(xs[5]);
    GoodWords(xs);
    GoodU32(c.cpuAvailable);
    GoodU64(c.storageAvailable);
    GoodU64(c.nicBandwidthAvailable);
    GoodPlain(c.contiguousMemory, []);
    GoodCode(1, 6, ProvenanceCode(c.provenance));
    GoodSix(Words(6), U32, U64, U64, Flag, Code(6),
      Nums(xs), Num(c.cpuAvailable), Num(c.storageAvailable), Num(c.nicBandwidthAvailable), Bit(c.contiguousMemory), Num(ProvenanceCode(c.provenance)));
  }

  predicate HealthInRange(h: HealthEvidence) {
    Is64(h.generation) && Is64(h.healthScore) && Short(h.degradationReason)
  }

  lemma GoodHealth(h: HealthEvidence)
    ensures Good(HealthSchema, HealthValue(h)) <==> HealthInRange(h)
  {
    GoodU64(h.generation);
    GoodPlain(h.ready, []);
    GoodU64(h.healthScore);
    GoodPlain(false, h.degradationReason);
    GoodCode(1, 6, ProvenanceCode(h.provenance));
    GoodFive(U64, Flag, U64, Str, Code(6),
      Num(h.generation), Bit(h.ready), Num(h.healthScore), Chars(h.degradationReason), Num(ProvenanceCode(h.provenance)));
  }

  predicate ReservationInRange(r: ReservationEvidence) {
    Is64(r.generation) && Is64(r.reservedBytes) && Short(r.reservationId)
  }

  lemma GoodReservation(r: ReservationEvidence)
    ensures Good(ReservationSchema, ReservationValue(r)) <==> ReservationInRange(r)
  {
    GoodU64(r.generation);
    GoodPlain(r.protectedResource, []);
    GoodU64(r.reservedBytes);
    GoodPlain(false, r.reservationId);
    GoodCode(1, 6, ProvenanceCode(r.provenance));
    GoodFive(U64, Flag, U64, Str, Code(6),
      Num(r.generation), Bit(r.protectedResource), Num(r.reservedBytes), Chars(r.reservationId), Num(ProvenanceCode(r.provenance)));
  }

  predicate CongestionInRange(c: CongestionEvidence) {
    Is64(c.generation) && Is64(c.congestion) && Is64(c.residualBandwidth) && Is64(c.bandwidthNominal) && Short(c.bottleneck)
  }

  lemma GoodCongestion(c: CongestionEvidence)
    ensures Good(CongestionSchema, CongestionValue(c)) <==> CongestionInRange(c)
  {
    GoodU64(c.generation);
    GoodU64(c.congestion);
    GoodU64(c.residualBandwidth);
    GoodU64(c.bandwidthNominal);
    GoodPlain(false, c.bottleneck);
    GoodCode(1, 6, ProvenanceCode(c.provenance));
    GoodSix(U64, U64, U64, U64, Str, Code(6),
      Num(c.generation), Num(c.congestion), Num(c.residualBandwidth), Num(c.bandwidthNominal), Chars(c.bottleneck), Num(ProvenanceCode(c.provenance)));
  }

  predicate LocalityInRange(l: LocalityEvidence) {
    && Is64(l.topologyGeneration) && Is32(l.numaDistance) && Is32(l.pcieHops) && Is32(l.nicDistance) && Is32(l.storageDistance)
    && Short(l.topologyGroup)
  }

  lemma GoodLocality(l: LocalityEvidence)
    ensures Good(LocalitySchema, LocalityValue(l)) <==> LocalityInRange(l)
  {
    GoodU64(l.topologyGeneration);
    GoodU32(l.numaDistance);
    GoodU32(l.pcieHops);
    GoodPlain(l.sharesPcieRoot, []);
    GoodU32(l.nicDistance);
    GoodU32(l.storageDistance);
    GoodPlain(false, l.topologyGroup);
    GoodCode(1, 6, ProvenanceCode(l.provenance));
    GoodEight(U64, U32, U32, Flag, U32, U32, Str, Code(6),
      Num(l.topologyGeneration), Num(l.numaDistance), Num(l.pcieHops), Bit(l.sharesPcieRoot), Num(l.nicDistance), Num(l.storageDistance), Chars(l.topologyGroup), Num(ProvenanceCode(l.provenance)));
  }

  predicate CommunicationInRange(c: CommunicationEvidence) {
    && Is64(c.planGeneration) && Is64(c.estimatedCost) && Is64(c.derivedPathCost) && Is64(c.collectiveCost)
    && Short(c.planId)
  }

  lemma GoodCommunication(c: CommunicationEvidence)
    ensures Good(CommunicationSchema, CommunicationValue(c)) <==> CommunicationInRange(c)
  {
    GoodU64(c.planGeneration);
    GoodU64(c.estimatedCost);
    GoodU64(c.derivedPathCost);
    GoodU64(c.collectiveCost);
    GoodPlain(c.pathFeasible, []);
    GoodPlain(false, c.planId);
    GoodCode(1, 6, ProvenanceCode(c.provenance));
    GoodSeven(U64, U64, U64, U64, Flag, Str, Code(6),
      Num(c.planGeneration), Num(c.estimatedCost), Num(c.derivedPathCost), Num(c.collectiveCost), Bit(c.pathFeasible), Chars(c.planId), Num(ProvenanceCode(c.provenance)));
  }

  predicate ResidentInRange(r: ResidencyEvidence) {
    Is64(r.residencyGeneration) && Is64(r.moveBytes) && Short(r.moveSource)
  }

  lemma GoodResident(r: ResidencyEvidence)
    ensures Good(ResidencyEvidenceSchema, ResidencyEvidenceValue(r)) <==> ResidentInRange(r)
  {
    GoodU64(r.residencyGeneration);
    GoodPlain(r.modelResident, []);
    GoodPlain(r.adapterResident, []);
    GoodPlain(r.stateLocal, []);
    GoodU64(r.moveBytes);
    GoodPlain(false, r.moveSource);
    GoodCode(1, 6, ProvenanceCode(r.provenance));
    GoodSeven(U64, Flag, Flag, Flag, U64, Str, Code(6),
      Num(r.residencyGeneration), Bit(r.modelResident), Bit(r.adapterResident), Bit(r.stateLocal), Num(r.moveBytes), Chars(r.moveSource), Num(ProvenanceCode(r.provenance)));
  }

  // --- bindings, claims and the other lists of a plan -------------------------------------------

  function BindingIds(b: DeviceBinding): seq<nat> {
    [b.deviceId, b.deviceGeneration, b.resourceId, b.resourceGeneration, b.nodeId, b.nodeGeneration, b.memoryDomainId,
     b.memoryDomainGeneration]
  }

  function BindingPlaces(b: DeviceBinding): seq<nat> {
    [b.nicId, b.nicGeneration, b.storageId, b.storageGeneration, b.cpuDomainId, b.cpuDomainGeneration]
  }

  predicate BindingInRange(b: DeviceBinding) {
    && All64(BindingIds(b)) && All64(BindingPlaces(b)) && Short(b.pcieRoot) && IsSigned32(b.cudaCompatibility)
    && Is64(b.capabilityGeneration)
  }

  lemma GoodBinding(b: DeviceBinding)
    ensures Good(BindingSchema, BindingValue(b)) <==> BindingInRange(b)
  {
    GoodWords(BindingIds(b));
    GoodWords(BindingPlaces(b));
    GoodPlain(false, b.pcieRoot);
    GoodPlain(b.sharesPcieRoot, []);
    GoodCode(1, 5, ClassCode(b.capability));
    GoodSigned(b.cudaCompatibility);
    GoodPlain(b.capabilityCurrent, []);
    GoodU64(b.capabilityGeneration);
    GoodEight(Words(8), Words(6), Str, Flag, Code(5), U32, Flag, U64,
      Nums(BindingIds(b)), Nums(BindingPlaces(b)), Chars(b.pcieRoot), Bit(b.sharesPcieRoot), Num(ClassCode(b.capability)), Signed(b.cudaCompatibility), Bit(b.capabilityCurrent), Num(b.capabilityGeneration));
  }

  predicate ClaimInRange(c: ResourceClaim) {
    Is64(c.resourceId) && Is64(c.resourceGeneration) && Is64(c.amount)
  }

  lemma GoodClaim(c: ResourceClaim)
    ensures Good(ClaimSchema, ClaimValue(c)) <==> ClaimInRange(c)
  {
    GoodU64(c.resourceId);
    GoodU64(c.resourceGeneration);
    GoodCode(1, 7, KindCode(c.kind));
    GoodU64(c.amount);
    GoodPlain(c.provisional, []);
    GoodFive(U64, U64, Code(7), U64, Flag,
      Num(c.resourceId), Num(c.resourceGeneration), Num(KindCode(c.kind)), Num(c.amount), Bit(c.provisional));
  }

  predicate FactorInRange(f: RankFactor) {
    Is64(f.value) && Is64(f.weight) && Short(f.description)
  }

  lemma GoodFactor(f: RankFactor)
    ensures Good(FactorSchema, FactorValue(f)) <==> FactorInRange(f)
  {
    GoodCode(2, 26, FactorCode(f.kind));
    GoodU64(f.value);
    GoodU64(f.weight);
    GoodCode(1, 6, ProvenanceCode(f.provenance));
    GoodPlain(false, f.description);
    GoodFive(Word(2, 26), U64, U64, Code(6), Str,
      Num(FactorCode(f.kind)), Num(f.value), Num(f.weight), Num(ProvenanceCode(f.provenance)), Chars(f.description));
  }

  predicate RejectedInRange(r: RejectedAlternative) {
    Is64(r.candidateId) && Is64(r.candidateGeneration) && Short(r.reason)
  }

  lemma GoodRejected(r: RejectedAlternative)
    ensures Good(RejectedSchema, RejectedValue(r)) <==> RejectedInRange(r)
  {
    GoodU64(r.candidateId);
    GoodU64(r.candidateGeneration);
    GoodCode(1, 18, StatusCode(r.status));
    GoodPlain(false, r.reason);
    GoodFour(U64, U64, Code(18), Str,
      Num(r.candidateId), Num(r.candidateGeneration), Num(StatusCode(r.status)), Chars(r.reason));
  }

  predicate EntryInRange(h: HistoryEntry) {
    Is64(h.ordinal)
  }

  lemma GoodEntry(h: HistoryEntry)
    ensures Good(EntrySchema, EntryValue(h)) <==> EntryInRange(h)
  {
    GoodCode(1, 13, StateCode(h.state));
    GoodU64(h.ordinal);
    GoodTwo(Code(13), U64,
      Num(StateCode(h.state)), Num(h.ordinal));
  }

  // --- demand and request ---------------------------------------------------------------------

  predicate AcceleratorInRange(a: AcceleratorRequirement) {
    && Is64(a.capabilityGeneration) && Is32(a.minimumCount) && Is32(a.targetCount) && Is32(a.maximumCount)
    && Is64(a.vramPerDevice) && Is64(a.aggregateVram)
  }

  lemma GoodAccelerator(a: AcceleratorRequirement)
    ensures Good(AcceleratorSchema, AcceleratorValue(a)) <==> AcceleratorInRange(a)
  {
    GoodU64(a.capabilityGeneration);
    GoodU32(a.minimumCount);
    GoodU32(a.targetCount);
    GoodU32(a.maximumCount);
    GoodU64(a.vramPerDevice);
    GoodU64(a.aggregateVram);
    GoodPlain(a.requiresContiguousMemory, []);
    GoodCode(1, 5, ClassCode(a.capability));
    GoodEight(U64, U32, U32, U32, U64, U64, Flag, Code(5),
      Num(a.capabilityGeneration), Num(a.minimumCount), Num(a.targetCount), Num(a.maximumCount),
      Num(a.vramPerDevice), Num(a.aggregateVram), Bit(a.requiresContiguousMemory), Num(ClassCode(a.capability)));
  }

  predicate QuantitiesInRange(d: DemandProfile) {
    && Is32(d.cpuRequired) && Is64(d.memory.hostMemory) && Is64(d.memory.pinnedMemory) && Is64(d.storage.capacity)
    && Is64(d.network.bandwidth)
  }

  lemma GoodQuantities(d: DemandProfile)
    ensures Good(CapacitySchema, CapacityValue(d)) <==> QuantitiesInRange(d)
  {
    GoodU32(d.cpuRequired);
    GoodU64(d.memory.hostMemory);
    GoodU64(d.memory.pinnedMemory);
    GoodU64(d.storage.capacity);
    GoodPlain(d.storage.requireLocal, []);
    GoodU64(d.network.bandwidth);
    GoodPlain(d.network.requireNic, []);
    GoodSeven(U32, U64, U64, U64, Flag, U64, Flag,
      Num(d.cpuRequired), Num(d.memory.hostMemory), Num(d.memory.pinnedMemory), Num(d.storage.capacity),
      Bit(d.storage.requireLocal), Num(d.network.bandwidth), Bit(d.network.requireNic));
  }

  predicate PathsInRange(r: ResidencyRequirement) {
    Short(r.modelPath) && Short(r.adapterPath) && Short(r.statePath)
  }

  lemma GoodPaths(r: ResidencyRequirement)
    ensures Good(ResidencySchema, ResidencyValue(r)) <==> PathsInRange(r)
  {
    GoodPlain(r.requireModelResident, []);
    GoodPlain(r.requireAdapterResident, []);
    GoodPlain(r.requireStateLocal, []);
    GoodPlain(false, r.modelPath);
    GoodPlain(false, r.adapterPath);
    GoodPlain(false, r.statePath);
    GoodSix(Flag, Flag, Flag, Str, Str, Str,
      Bit(r.requireModelResident), Bit(r.requireAdapterResident), Bit(r.requireStateLocal), Chars(r.modelPath),
      Chars(r.adapterPath), Chars(r.statePath));
  }

  predicate ObjectiveInRange(d: DemandProfile) {
    && Is64(d.expectedExecutionDuration) && d.latencySensitivity <= 3 && Is64(d.throughputObjective)
    && IsSigned32(d.externalPriority) && Is64(d.externalPriorityOrdinal) && Is64(d.sloGeneration) && Is64(d.policyGeneration)
    && Is64(d.priorityGeneration) && Is64(d.maximumMovementCost)
  }

  lemma GoodObjective(d: DemandProfile)
    ensures Good(ObjectiveSchema, ObjectiveValue(d)) <==> ObjectiveInRange(d)
  {
    var gens := [d.sloGeneration, d.policyGeneration, d.priorityGeneration];
    assert All64(gens) <==> Is64(gens[0]) && Is64(gens[1]) && Is64(gens[2]);
    GoodU64(d.expectedExecutionDuration);
    GoodCode(1, 3, d.latencySensitivity);
    GoodU64(d.throughputObjective);
    GoodSigned(d.externalPriority);
    GoodU64(d.externalPriorityOrdinal);
    GoodWords(gens);
    GoodU64(d.maximumMovementCost);
    GoodSeven(U64, Code(3), U64, U32, U64, Words(3), U64,
      Num(d.expectedExecutionDuration), Num(d.latencySensitivity), Num(d.throughputObjective),
      Signed(d.externalPriority), Num(d.externalPriorityOrdinal), Nums(gens), Num(d.maximumMovementCost));
  }

  predicate IsLocalityKind(n: nat) {
    n <= 4
  }

  lemma GoodTraffic(d: DemandProfile)
    ensures Good(Record([Code(8), U64]), Tuple([Num(d.communication), Num(d.communicationBytes)])) <==>
      d.communication <= 8 && Is64(d.communicationBytes)
  {
    GoodCode(1, 8, d.communication);
    GoodU64(d.communicationBytes);
    GoodTwo(Code(8), U64, Num(d.communication), Num(d.communicationBytes));
  }

  lemma GoodDomains(f: FailureDomainConstraint)
    ensures Good(Record([U32, Flag, Flag]), Tuple([Num(f.minimumDistinctDomains), Bit(f.avoidColocation), Bit(f.avoidSingleRoot)]))
      <==> Is32(f.minimumDistinctDomains)
  {
    GoodU32(f.minimumDistinctDomains);
    GoodPlain(f.avoidColocation, []);
    GoodPlain(f.avoidSingleRoot, []);
    GoodThree(U32, Flag, Flag, Num(f.minimumDistinctDomains), Bit(f.avoidColocation), Bit(f.avoidSingleRoot));
  }

  predicate DemandIdsInRange(d: DemandProfile) {
    Is64(d.demandId) && Is64(d.demandGeneration) && Is64(d.workloadId) && Is64(d.workloadGeneration)
  }

  lemma GoodDemandIds(d: DemandProfile)
    ensures Good(Words(4), Nums([d.demandId, d.demandGeneration, d.workloadId, d.workloadGeneration])) <==> DemandIdsInRange(d)
  {
    var ids := [d.demandId, d.demandGeneration, d.workloadId, d.workloadGeneration];
    GoodWords(ids);
    assert All64(ids) <==> Is64(ids[0]) && Is64(ids[1]) && Is64(ids[2]) && Is64(ids[3]);
  }

  lemma GoodLocalities(ls: seq<nat>)
    ensures Good(List(Code(4), false), Nums(ls)) <==> ListInRange(IsLocalityKind, ls)
  {
    Widths();
    GoodNumbers(1, 4, false, IsLocalityKind, ls);
  }

  predicate DemandInRange(d: DemandProfile) {
    && DemandIdsInRange(d) && AcceleratorInRange(d.accelerator) && QuantitiesInRange(d) && d.communication <= 8
    && Is64(d.communicationBytes) && PathsInRange(d.residency) && Is32(d.failureDomains.minimumDistinctDomains)
    && ObjectiveInRange(d) && ListInRange(IsLocalityKind, d.fallbackLocalities)
  }

  lemma GoodDemand(d: DemandProfile)
    ensures Good(DemandFields, DemandValue(d)) <==> DemandInRange(d)
  {
    var f := d.failureDomains;
    GoodDemandIds(d);
    GoodAccelerator(d.accelerator);
    GoodQuantities(d);
    GoodTraffic(d);
    GoodPaths(d.residency);
    GoodDomains(f);
    GoodObjective(d);
    GoodLocalities(d.fallbackLocalities);
    GoodCode(1, 6, ProvenanceCode(d.provenance));
    GoodNine(Words(4), AcceleratorSchema, CapacitySchema, Record([Code(8), U64]), ResidencySchema, Record([U32, Flag,
      Flag]), ObjectiveSchema, List(Code(4), false), Code(6),
      Nums([d.demandId, d.demandGeneration, d.workloadId, d.workloadGeneration]), AcceleratorValue(d.accelerator),
      CapacityValue(d), Tuple([Num(d.communication), Num(d.communicationBytes)]), ResidencyValue(d.residency),
      Tuple([Num(f.minimumDistinctDomains), Bit(f.avoidColocation), Bit(f.avoidSingleRoot)]), ObjectiveValue(d),
      Nums(d.fallbackLocalities), Num(ProvenanceCode(d.provenance)));
  }

  predicate RequestInRange(r: SchedulingRequest) {
    && Is64(r.requestId) && Is64(r.generation) && Is64(r.coordinatorEpoch) && Is64(r.sourceId) && Is64(r.sourceBootId)
    && Is64(r.submitOrdinal) && DemandInRange(r.demand)
  }

  /** A request is in the codec's reach exactly when its numbers, paths and localities are. */
  lemma GoodRequest(r: SchedulingRequest)
    ensures Good(RequestSchema, RequestValue(r)) <==> RequestInRange(r)
  {
    GoodU64(r.requestId);
    GoodU64(r.generation);
    GoodU64(r.coordinatorEpoch);
    GoodU64(r.sourceId);
    GoodU64(r.sourceBootId);
    GoodU64(r.submitOrdinal);
    GoodDemand(r.demand);
    GoodSeven(U64, U64, U64, U64, U64, U64, DemandSchema,
      Num(r.requestId), Num(r.generation), Num(r.coordinatorEpoch), Num(r.sourceId), Num(r.sourceBootId),
      Num(r.submitOrdinal), DemandValue(r.demand));
  }

  // --- plan -----------------------------------------------------------------------------------

  function FingerprintStart(g: GenerationFingerprint): seq<nat> {
    [g.topology, g.capacity, g.reservation, g.congestion, g.capability, g.health]
  }

  function FingerprintEnd(g: GenerationFingerprint): seq<nat> {
    [g.residency, g.communicationPlan, g.policy, g.resource, g.dependency, g.coordinatorEpoch]
  }

  predicate FingerprintInRange(g: GenerationFingerprint) {
    All64(FingerprintStart(g)) && All64(FingerprintEnd(g))
  }

  lemma GoodFingerprint(g: GenerationFingerprint)
    ensures Good(FingerprintSchema, FingerprintValue(g)) <==> FingerprintInRange(g)
  {
    GoodWords(FingerprintStart(g));
    GoodWords(FingerprintEnd(g));
    GoodTwo(Words(6), Words(6),
      Nums(FingerprintStart(g)), Nums(FingerprintEnd(g)));
  }

  predicate MovementInRange(p: PlacementPlan) {
    Is64(p.communicationPlan) && Short(p.communicationPlanId) && Is64(p.movementBytes) && Short(p.movementSource)
  }

  lemma GoodMovement(p: PlacementPlan)
    ensures Good(MovementSchema, MovementValue(p)) <==> MovementInRange(p)
  {
    GoodU64(p.communicationPlan);
    GoodPlain(false, p.communicationPlanId);
    GoodU64(p.movementBytes);
    GoodPlain(false, p.movementSource);
    GoodPlain(p.residencyPrerequisite, []);
    GoodFive(U64, Str, U64, Str, Flag,
      Num(p.communicationPlan), Chars(p.communicationPlanId), Num(p.movementBytes), Chars(p.movementSource),
      Bit(p.residencyPrerequisite));
  }

  lemma GoodHistory(xs: seq<HistoryEntry>)
    ensures Good(List(EntrySchema, false), Each(EntryValue, xs)) <==> ListInRange(EntryInRange, xs)
  {
    forall i | 0 <= i < |xs| ensures Good(EntrySchema, EntryValue(xs[i])) <==> EntryInRange(xs[i]) { GoodEntry(xs[i]); }
    GoodList(EntrySchema, false, EntryValue, EntryInRange, xs);
  }

  lemma GoodBindings(xs: seq<DeviceBinding>)
    ensures Good(List(BindingSchema, false), Each(BindingValue, xs)) <==> ListInRange(BindingInRange, xs)
  {
    forall i | 0 <= i < |xs| ensures Good(BindingSchema, BindingValue(xs[i])) <==> BindingInRange(xs[i]) { GoodBinding(xs[i]); }
    GoodList(BindingSchema, false, BindingValue, BindingInRange, xs);
  }

  lemma GoodClaims(xs: seq<ResourceClaim>)
    ensures Good(List(ClaimSchema, false), Each(ClaimValue, xs)) <==> ListInRange(ClaimInRange, xs)
  {
    forall i | 0 <= i < |xs| ensures Good(ClaimSchema, ClaimValue(xs[i])) <==> ClaimInRange(xs[i]) { GoodClaim(xs[i]); }
    GoodList(ClaimSchema, false, ClaimValue, ClaimInRange, xs);
  }

  lemma GoodFactors(xs: seq<RankFactor>)
    ensures Good(List(FactorSchema, false), Each(FactorValue, xs)) <==> ListInRange(FactorInRange, xs)
  {
    forall i | 0 <= i < |xs| ensures Good(FactorSchema, FactorValue(xs[i])) <==> FactorInRange(xs[i]) { GoodFactor(xs[i]); }
    GoodList(FactorSchema, false, FactorValue, FactorInRange, xs);
  }

  lemma GoodRejections(xs: seq<RejectedAlternative>)
    ensures Good(List(RejectedSchema, false), Each(RejectedValue, xs)) <==> ListInRange(RejectedInRange, xs)
  {
    forall i | 0 <= i < |xs| ensures Good(RejectedSchema, RejectedValue(xs[i])) <==> RejectedInRange(xs[i]) { GoodRejected(xs[i]); }
    GoodList(RejectedSchema, false, RejectedValue, RejectedInRange, xs);
  }

  predicate StandingInRange(p: PlacementPlan) {
    && FingerprintInRange(p.generations) && Is64(p.policyGeneration) && Is64(p.authorityGeneration)
    && ListInRange(EntryInRange, p.stateHistory) && Is64(p.coordinatorEpoch) && Is64(p.supersededBy)
    && Short(p.supersessionReason)
  }

  lemma GoodStanding(p: PlacementPlan)
    ensures Good(StandingSchema, StandingValue(p)) <==> StandingInRange(p)
  {
    GoodFingerprint(p.generations);
    GoodU64(p.policyGeneration);
    GoodU64(p.authorityGeneration);
    GoodCode(1, 13, StateCode(p.state));
    GoodHistory(p.stateHistory);
    GoodU64(p.coordinatorEpoch);
    GoodU64(p.supersededBy);
    GoodPlain(false, p.supersessionReason);
    GoodPlain(p.hasCommitmentEvidence, []);
    GoodNine(FingerprintSchema, U64, U64, Code(13), List(EntrySchema, false), U64, U64, Str, Flag,
      FingerprintValue(p.generations), Num(p.policyGeneration), Num(p.authorityGeneration),
      Num(StateCode(p.state)), Each(EntryValue, p.stateHistory), Num(p.coordinatorEpoch), Num(p.supersededBy),
      Chars(p.supersessionReason), Bit(p.hasCommitmentEvidence));
  }

  predicate OriginInRange(p: PlacementPlan) {
    && Is64(p.planGeneration) && Is64(p.requestId) && Is64(p.requestGeneration) && Is64(p.selectedCandidate)
    && Is64(p.selectedCandidateGeneration)
  }

  lemma GoodOrigin(p: PlacementPlan)
    ensures Good(OriginSchema, OriginValue(p)) <==> OriginInRange(p)
  {
    var ids := [p.planGeneration, p.requestId, p.requestGeneration, p.selectedCandidate, p.selectedCandidateGeneration];
    GoodWords(ids);
    assert All64(ids) <==> Is64(ids[0]) && Is64(ids[1]) && Is64(ids[2]) && Is64(ids[3]) && Is64(ids[4]);
  }

  lemma GoodIds(unique: bool, ns: seq<nat>)
    ensures Good(List(U64, unique), Nums(ns)) <==> ListInRange(Is64, ns)
  {
    Widths();
    GoodNumbers(8, U64_LIMIT - 1, unique, Is64, ns);
  }

  predicate PlanInRange(p: PlacementPlan) {
    && Is64(p.planId) && OriginInRange(p) && ListInRange(Is64, p.fallbackCandidates) && ListInRange(BindingInRange, p.bindings)
    && ListInRange(ClaimInRange, p.claims) && MovementInRange(p) && ListInRange(FactorInRange, p.selectedFactors)
    && ListInRange(RejectedInRange, p.rejectedAlternatives) && StandingInRange(p)
  }

  /** A plan is, exactly when its numbers, strings and lists are. */
  lemma GoodPlan(p: PlacementPlan)
    ensures Good(PlanSchema, PlanValue(p)) <==> PlanInRange(p)
  {
    GoodU64(p.planId);
    GoodOrigin(p);
    GoodIds(false, p.fallbackCandidates);
    GoodBindings(p.bindings);
    GoodClaims(p.claims);
    GoodMovement(p);
    GoodFactors(p.selectedFactors);
    GoodRejections(p.rejectedAlternatives);
    GoodStanding(p);
    GoodNine(U64, OriginSchema, List(U64, false), List(BindingSchema, false), List(ClaimSchema, false), MovementSchema,
      List(FactorSchema, false), List(RejectedSchema, false), StandingSchema,
      Num(p.planId), OriginValue(p), Nums(p.fallbackCandidates), Each(BindingValue, p.bindings), Each(ClaimValue,
      p.claims), MovementValue(p), Each(FactorValue, p.selectedFactors), Each(RejectedValue,
      p.rejectedAlternatives), StandingValue(p));
  }

  // --- candidate ------------------------------------------------------------------------------

  lemma GoodState(c: Candidate)
    ensures Good(CandidateSchema.fields[3],
                 Tuple([CapacityEvidenceValue(c.capacity), HealthValue(c.health), ReservationValue(c.reservation),
                        CongestionValue(c.congestion)])) <==>
      CapacityInRange(c.capacity) && HealthInRange(c.health) && ReservationInRange(c.reservation) && CongestionInRange(c.congestion)
  {
    GoodCapacity(c.capacity);
    GoodHealth(c.health);
    GoodReservation(c.reservation);
    GoodCongestion(c.congestion);
    GoodFour(CapacityEvidenceSchema, HealthSchema, ReservationSchema, CongestionSchema,
             CapacityEvidenceValue(c.capacity), HealthValue(c.health), ReservationValue(c.reservation), CongestionValue(c.congestion));
  }

  lemma GoodPlace(c: Candidate)
    ensures Good(CandidateSchema.fields[4],
                 Tuple([LocalityValue(c.locality), CommunicationValue(c.communication), ResidencyEvidenceValue(c.residency)])) <==>
      LocalityInRange(c.locality) && CommunicationInRange(c.communication) && ResidentInRange(c.residency)
  {
    GoodLocality(c.locality);
    GoodCommunication(c.communication);
    GoodResident(c.residency);
    GoodThree(LocalitySchema, CommunicationSchema, ResidencyEvidenceSchema,
              LocalityValue(c.locality), CommunicationValue(c.communication), ResidencyEvidenceValue(c.residency));
  }

  predicate CandidateInRange(c: Candidate) {
    && All64(CandidateIds(c)) && ListInRange(BindingInRange, c.bindings)
    && CapacityInRange(c.capacity) && HealthInRange(c.health) && ReservationInRange(c.reservation) && CongestionInRange(c.congestion)
    && LocalityInRange(c.locality) && CommunicationInRange(c.communication) && ResidentInRange(c.residency)
    && Is64(c.policyGeneration) && Is64(c.memoryMovementCost)
  }

  /** A candidate is, exactly when its ids, its bindings and its evidence are. */
  lemma GoodCandidate(c: Candidate)
    ensures Good(CandidateSchema, CandidateValue(c)) <==> CandidateInRange(c)
  {
    GoodWords(CandidateIds(c));
    GoodCode(1, 6, ProvenanceCode(c.provenance));
    GoodBindings(c.bindings);
    GoodState(c);
    GoodPlace(c);
    GoodU64(c.policyGeneration);
    GoodU64(c.memoryMovementCost);
    GoodSeven(Words(6), Code(6), List(BindingSchema, false), CandidateSchema.fields[3], CandidateSchema.fields[4], U64,
      U64,
      Nums(CandidateIds(c)), Num(ProvenanceCode(c.provenance)), Each(BindingValue, c.bindings),
      Tuple([CapacityEvidenceValue(c.capacity), HealthValue(c.health), ReservationValue(c.reservation),
      CongestionValue(c.congestion)]), Tuple([LocalityValue(c.locality), CommunicationValue(c.communication),
      ResidencyEvidenceValue(c.residency)]), Num(c.policyGeneration), Num(c.memoryMovementCost));
  }

  predicate IdentityInRange(c: CandidateIdentity) {
    && Is64(c.candidateId) && Is64(c.candidateGeneration) && Is64(c.sourceId) && Is64(c.sourceBootId) && Is64(c.workerId)
    && Is64(c.workerBootId)
  }

  lemma GoodIdentity(c: CandidateIdentity)
    ensures Good(IdentitySchema, IdentityValue(c)) <==> IdentityInRange(c)
  {
    GoodU64(c.candidateId);
    GoodU64(c.candidateGeneration);
    GoodU64(c.sourceId);
    GoodU64(c.sourceBootId);
    GoodU64(c.workerId);
    GoodU64(c.workerBootId);
    GoodSix(U64, U64, U64, U64, U64, U64,
      Num(c.candidateId), Num(c.candidateGeneration), Num(c.sourceId), Num(c.sourceBootId), Num(c.workerId),
      Num(c.workerBootId));
  }

  // --- the snapshot ---------------------------------------------------------------------------

  lemma GoodRequests(xs: seq<SchedulingRequest>)
    ensures Good(List(RequestSchema, true), Each(RequestValue, xs)) <==> ListInRange(RequestInRange, xs)
  {
    forall i | 0 <= i < |xs| ensures Good(RequestSchema, RequestValue(xs[i])) <==> RequestInRange(xs[i]) { GoodRequest(xs[i]); }
    GoodList(RequestSchema, true, RequestValue, RequestInRange, xs);
  }

  lemma GoodPlans(xs: seq<PlacementPlan>)
    ensures Good(List(PlanSchema, true), Each(PlanValue, xs)) <==> ListInRange(PlanInRange, xs)
  {
    forall i | 0 <= i < |xs| ensures Good(PlanSchema, PlanValue(xs[i])) <==> PlanInRange(xs[i]) { GoodPlan(xs[i]); }
    GoodList(PlanSchema, true, PlanValue, PlanInRange, xs);
  }

  lemma GoodIdentities(xs: seq<CandidateIdentity>)
    ensures Good(List(IdentitySchema, true), Each(IdentityValue, xs)) <==> ListInRange(IdentityInRange, xs)
  {
    forall i | 0 <= i < |xs| ensures Good(IdentitySchema, IdentityValue(xs[i])) <==> IdentityInRange(xs[i]) { GoodIdentity(xs[i]); }
    GoodList(IdentitySchema, true, IdentityValue, IdentityInRange, xs);
  }

  lemma GoodLines(xs: seq<Text>)
    ensures Good(List(Str, false), Each(Persistence.Line, xs)) <==> ListInRange(Short, xs)
  {
    forall i | 0 <= i < |xs| ensures Good(Str, Persistence.Line(xs[i])) <==> Short(xs[i]) { GoodPlain(false, xs[i]); }
    GoodList(Str, false, Persistence.Line, Short, xs);
  }

  predicate CountersInRange(p: Persisted) {
    && Is64(p.epoch) && Is64(p.authority) && Is64(p.nextPlanId) && Is64(p.nextSubmitOrdinal) && Is64(p.nextEventOrdinal)
    && Is64(p.ingestWatermark)
  }

  lemma GoodBody(p: Persisted)
    ensures Good(Persistence.BodySchema, Persistence.BodyValue(p)) <==>
      CountersInRange(p) && ListInRange(RequestInRange, p.requests) && ListInRange(PlanInRange, p.plans)
  {
    var ns := Persistence.CountersOf(p);
    GoodWords(ns);
    assert All64(ns) <==> Is64(ns[0]) && Is64(ns[1]) && Is64(ns[2]) && Is64(ns[3]) && Is64(ns[4]) && Is64(ns[5]);
    assert Good(Persistence.HeadSchema, Nums(ns)) <==> Good(Words(6), Nums(ns));
    GoodRequests(p.requests);
    GoodPlans(p.plans);
    GoodThree(Persistence.HeadSchema, List(RequestSchema, true), List(PlanSchema, true),
              Nums(ns), Each(RequestValue, p.requests), Each(PlanValue, p.plans));
  }

  predicate SnapshotInRange(p: Persisted, order: seq<nat>) {
    && CountersInRange(p) && ListInRange(RequestInRange, p.requests) && ListInRange(PlanInRange, p.plans)
    && ListInRange(IdentityInRange, p.candidateIdentities) && ListInRange(Short, p.supersessionHistory)
    && ListInRange(Is64, order)
  }

  /** A snapshot is, exactly when its counters and all its lists are. */
  lemma GoodSnapshot(p: Persisted, order: seq<nat>)
    ensures Good(Persistence.SnapshotSchema, Persistence.SnapshotValue(p, order)) <==> SnapshotInRange(p, order)
  {
    GoodBody(p);
    GoodIdentities(p.candidateIdentities);
    GoodLines(p.supersessionHistory);
    GoodIds(false, order);
    GoodFour(Persistence.BodySchema, List(IdentitySchema, true), List(Str, false), List(U64, false),
             Persistence.BodyValue(p), Each(IdentityValue, p.candidateIdentities), Each(Persistence.Line, p.supersessionHistory),
             Nums(order));
  }
}
