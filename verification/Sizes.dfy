/** Records small enough for the file format: numbers in their integer types, lengths within the loader's bounds,
    and a bound on the bytes they take. */
module Sizes {
  import opened Types
  import opened Lifecycle
  import opened Coding
  import opened Codes
  import opened Wire
  import opened Records
  import opened CandidateRecords
  import opened Persistence
  import opened SnapshotChecks

  /** v can be written, is within the loader's bounds, and takes at most m bytes. */
  ghost predicate Fine(sc: Schema, v: Value, m: nat) {
    Shaped(sc, v) && Passes(Bounds, sc, v) && |Enc(sc, v)| <= m
  }

  // --- fields ---------------------------------------------------------------------------------

  lemma WordFine(k: nat, limit: nat, n: nat)
    requires n < Pow256(k) && n <= limit
    ensures Fine(Word(k, limit), Num(n), k)
  {}

  lemma U64Fine(n: nat)
    requires n < U64_LIMIT
    ensures Fine(U64, Num(n), 8)
  {
    Widths();
    WordFine(8, U64_LIMIT - 1, n);
  }

  lemma U32Fine(n: nat)
    requires n < U32_LIMIT
    ensures Fine(U32, Num(n), 4)
  {
    Widths();
    WordFine(4, U32_LIMIT - 1, n);
  }

  lemma CodeFine(largest: nat, n: nat)
    requires n <= largest < 256
    ensures Fine(Code(largest), Num(n), 1)
  {
    Widths();
    WordFine(1, largest, n);
  }

  lemma NoTextFine()
    ensures Fine(Str, Chars([]), 4)
  {}

  lemma CheckedFine(inner: Schema, rule: Value -> Option<ErrorCode>, v: Value, m: nat)
    requires Fine(inner, v, m)
    ensures Fine(Checked(inner, rule), v, m)
  {}

  // --- records and lists ----------------------------------------------------------------------

  lemma TimesNext(m: nat, n: nat)
    requires n > 0
    ensures m * n == m + m * (n - 1)
  {}

  lemma {:induction false} AllLength(fs: seq<Schema>, vs: seq<Value>, m: nat)
    requires |fs| == |vs| && forall i :: 0 <= i < |fs| ==> |Enc(fs[i], vs[i])| <= m
    ensures |EncAll(fs, vs)| <= m * |fs|
    decreases |fs|
  {
    if fs != [] {
      AllLength(fs[1..], vs[1..], m);
      TimesNext(m, |fs|);
    }
  }

  ghost predicate AllFine(fs: seq<Schema>, vs: seq<Value>, m: nat) {
    |fs| == |vs| && forall i :: 0 <= i < |fs| ==> Fine(fs[i], vs[i], m)
  }

  lemma JoinFine(fs: seq<Schema>, vs: seq<Value>, gs: seq<Schema>, ws: seq<Value>, m: nat)
    requires AllFine(fs, vs, m) && AllFine(gs, ws, m)
    ensures AllFine(fs + gs, vs + ws, m)
  {}

  lemma ThreeFine(a: Schema, b: Schema, c: Schema, x: Value, y: Value, z: Value, m: nat)
    requires Fine(a, x, m) && Fine(b, y, m) && Fine(c, z, m)
    ensures Fine(Record([a, b, c]), Tuple([x, y, z]), 3 * m)
  {
    RecordFine([a, b, c], [x, y, z], m);
  }

  lemma FourFine(a: Schema, b: Schema, c: Schema, d: Schema, x: Value, y: Value, z: Value, w: Value, m: nat)
    requires Fine(a, x, m) && Fine(b, y, m) && Fine(c, z, m) && Fine(d, w, m)
    ensures AllFine([a, b, c, d], [x, y, z, w], m)
  {}

  lemma EightFine(a: Schema, b: Schema, c: Schema, d: Schema, e: Schema, f: Schema, g: Schema, h: Schema,
                  p: Value, q: Value, r: Value, s: Value, t: Value, u: Value, v: Value, w: Value, m: nat)
    requires Fine(a, p, m) && Fine(b, q, m) && Fine(c, r, m) && Fine(d, s, m)
    requires Fine(e, t, m) && Fine(f, u, m) && Fine(g, v, m) && Fine(h, w, m)
    ensures AllFine([a, b, c, d, e, f, g, h], [p, q, r, s, t, u, v, w], m)
  {
    FourFine(a, b, c, d, p, q, r, s, m);
    FourFine(e, f, g, h, t, u, v, w, m);
    JoinFine([a, b, c, d], [p, q, r, s], [e, f, g, h], [t, u, v, w], m);
    assert [a, b, c, d] + [e, f, g, h] == [a, b, c, d, e, f, g, h];
    assert [p, q, r, s] + [t, u, v, w] == [p, q, r, s, t, u, v, w];
  }

  lemma NineFine(a: Schema, b: Schema, c: Schema, d: Schema, e: Schema, f: Schema, g: Schema, h: Schema, i: Schema,
                 p: Value, q: Value, r: Value, s: Value, t: Value, u: Value, v: Value, w: Value, x: Value, m: nat)
    requires Fine(a, p, m) && Fine(b, q, m) && Fine(c, r, m) && Fine(d, s, m)
    requires Fine(e, t, m) && Fine(f, u, m) && Fine(g, v, m) && Fine(h, w, m) && Fine(i, x, m)
    ensures AllFine([a, b, c, d, e, f, g, h, i], [p, q, r, s, t, u, v, w, x], m)
  {
    EightFine(a, b, c, d, e, f, g, h, p, q, r, s, t, u, v, w, m);
    JoinFine([a, b, c, d, e, f, g, h], [p, q, r, s, t, u, v, w], [i], [x], m);
    assert [a, b, c, d, e, f, g, h] + [i] == [a, b, c, d, e, f, g, h, i];
    assert [p, q, r, s, t, u, v, w] + [x] == [p, q, r, s, t, u, v, w, x];
  }

  lemma RecordFine(fs: seq<Schema>, vs: seq<Value>, m: nat)
    requires AllFine(fs, vs, m)
    ensures Fine(Record(fs), Tuple(vs), m * |fs|)
  {
    AllLength(fs, vs, m);
  }

  lemma {:induction false} ItemsLength(elem: Schema, vs: seq<Value>, m: nat)
    requires forall i :: 0 <= i < |vs| ==> |Enc(elem, vs[i])| <= m
    ensures |EncItems(elem, vs)| <= m * |vs|
    decreases |vs|
  {
    if vs != [] {
      ItemsLength(elem, vs[1..], m);
      TimesNext(m, |vs|);
    }
  }

  lemma ListFine(elem: Schema, unique: bool, vs: seq<Value>, m: nat)
    requires |vs| <= MAX_RECORDS && forall i :: 0 <= i < |vs| ==> Fine(elem, vs[i], m)
    ensures Fine(List(elem, unique), Tuple(vs), 4 + m * |vs|)
  {
    ItemsLength(elem, vs, m);
  }

  lemma EachFine<A>(elem: Schema, unique: bool, f: A -> Value, xs: seq<A>, m: nat)
    requires |xs| <= MAX_RECORDS && forall i :: 0 <= i < |xs| ==> Fine(elem, f(xs[i]), m)
    ensures Fine(List(elem, unique), Each(f, xs), 4 + m * |xs|) && ShapedEach(elem, f, xs)
  {
    var vs := Each(f, xs).items;
    assert forall i :: 0 <= i < |xs| ==> vs[i] == f(xs[i]);
    ListFine(elem, unique, vs, m);
  }

  ghost predicate AllU64(ns: seq<nat>) {
    forall i :: 0 <= i < |ns| ==> ns[i] < U64_LIMIT
  }

  lemma NumsFine(k: nat, ns: seq<nat>)
    requires |ns| == k && AllU64(ns)
    ensures Fine(Words(k), Nums(ns), 8 * k)
  {
    var fs, vs := Words(k).fields, Nums(ns).items;
    forall i | 0 <= i < k ensures Fine(fs[i], vs[i], 8) { U64Fine(ns[i]); }
    RecordFine(fs, vs, 8);
  }

  lemma NoNumsFine()
    ensures Fine(List(U64, false), Nums([]), 4)
  {
    ListFine(U64, false, Nums([]).items, 0);
  }

  // --- a plan without texts -------------------------------------------------------------------

  ghost predicate BindingSmall(b: DeviceBinding) {
    && AllU64([b.deviceId, b.deviceGeneration, b.resourceId, b.resourceGeneration, b.nodeId, b.nodeGeneration,
               b.memoryDomainId, b.memoryDomainGeneration])
    && AllU64([b.nicId, b.nicGeneration, b.storageId, b.storageGeneration, b.cpuDomainId, b.cpuDomainGeneration])
    && b.pcieRoot == [] && 0 <= b.cudaCompatibility < U32_LIMIT / 2 && b.capabilityGeneration < U64_LIMIT
  }

  lemma BindingFine(b: DeviceBinding)
    requires BindingSmall(b)
    ensures Fine(BindingSchema, BindingValue(b), 512)
  {
    var x := [b.deviceId, b.deviceGeneration, b.resourceId, b.resourceGeneration, b.nodeId, b.nodeGeneration,
              b.memoryDomainId, b.memoryDomainGeneration];
    var y := [b.nicId, b.nicGeneration, b.storageId, b.storageGeneration, b.cpuDomainId, b.cpuDomainGeneration];
    NumsFine(8, x);
    NumsFine(6, y);
    NoTextFine();
    CodeFine(5, ClassCode(b.capability));
    U32Fine(b.cudaCompatibility);
    U64Fine(b.capabilityGeneration);
    EightFine(Words(8), Words(6), Str, Flag, Code(5), U32, Flag, U64,
              Nums(x), Nums(y), Chars([]), Bit(b.sharesPcieRoot), Num(ClassCode(b.capability)), Signed(b.cudaCompatibility),
              Bit(b.capabilityCurrent), Num(b.capabilityGeneration), 64);
    RecordFine(BindingSchema.fields, BindingValue(b).items, 64);
  }

  ghost predicate ClaimSmall(c: ResourceClaim) {
    c.resourceId < U64_LIMIT && c.resourceGeneration < U64_LIMIT && c.amount < U64_LIMIT
  }

  lemma ClaimFine(c: ResourceClaim)
    requires ClaimSmall(c)
    ensures Fine(ClaimSchema, ClaimValue(c), 40)
  {
    var fs, vs := ClaimSchema.fields, ClaimValue(c).items;
    U64Fine(c.resourceId);
    U64Fine(c.resourceGeneration);
    CodeFine(7, KindCode(c.kind));
    U64Fine(c.amount);
    assert forall i :: 0 <= i < |fs| ==> Fine(fs[i], vs[i], 8);
    RecordFine(fs, vs, 8);
  }

  ghost predicate FactorSmall(f: RankFactor) {
    f.value < U64_LIMIT && f.weight < U64_LIMIT && f.description == []
  }

  lemma FactorFine(f: RankFactor)
    requires FactorSmall(f)
    ensures Fine(FactorSchema, FactorValue(f), 40)
  {
    var fs, vs := FactorFields.fields, FactorValue(f).items;
    Widths();
    WordFine(2, 26, FactorCode(f.kind));
    U64Fine(f.value);
    U64Fine(f.weight);
    CodeFine(6, ProvenanceCode(f.provenance));
    NoTextFine();
    assert forall i :: 0 <= i < |fs| ==> Fine(fs[i], vs[i], 8);
    RecordFine(fs, vs, 8);
    CheckedFine(FactorFields, FactorRule, FactorValue(f), 40);
  }

  lemma EntryFine(h: HistoryEntry)
    requires h.ordinal < U64_LIMIT
    ensures Fine(EntrySchema, EntryValue(h), 16)
  {
    var fs, vs := EntrySchema.fields, EntryValue(h).items;
    CodeFine(13, StateCode(h.state));
    U64Fine(h.ordinal);
    assert forall i :: 0 <= i < |fs| ==> Fine(fs[i], vs[i], 8);
    RecordFine(fs, vs, 8);
  }

  ghost predicate FingerprintSmall(g: GenerationFingerprint) {
    && AllU64([g.topology, g.capacity, g.reservation, g.congestion, g.capability, g.health])
    && AllU64([g.residency, g.communicationPlan, g.policy, g.resource, g.dependency, g.coordinatorEpoch])
  }

  lemma FingerprintFine(g: GenerationFingerprint)
    requires FingerprintSmall(g)
    ensures Fine(FingerprintSchema, FingerprintValue(g), 96)
  {
    var fs, vs := FingerprintSchema.fields, FingerprintValue(g).items;
    NumsFine(6, [g.topology, g.capacity, g.reservation, g.congestion, g.capability, g.health]);
    NumsFine(6, [g.residency, g.communicationPlan, g.policy, g.resource, g.dependency, g.coordinatorEpoch]);
    assert forall i :: 0 <= i < |fs| ==> Fine(fs[i], vs[i], 48);
    RecordFine(fs, vs, 48);
  }

  ghost predicate StandingSmall(p: PlacementPlan) {
    && FingerprintSmall(p.generations) && p.policyGeneration < U64_LIMIT && p.authorityGeneration < U64_LIMIT
    && |p.stateHistory| <= MAX_HISTORY && (forall i :: 0 <= i < |p.stateHistory| ==> p.stateHistory[i].ordinal < U64_LIMIT)
    && p.coordinatorEpoch < U64_LIMIT && p.supersededBy < U64_LIMIT && p.supersessionReason == []
  }

  lemma HistoryFine(p: PlacementPlan)
    requires StandingSmall(p)
    ensures Fine(List(EntrySchema, false), Each(EntryValue, p.stateHistory), 1028)
  {
    forall i | 0 <= i < |p.stateHistory| ensures Fine(EntrySchema, EntryValue(p.stateHistory[i]), 16) {
      EntryFine(p.stateHistory[i]);
    }
    EachFine(EntrySchema, false, EntryValue, p.stateHistory, 16);
  }

  lemma StandingFine(p: PlacementPlan)
    requires StandingSmall(p)
    ensures Fine(StandingSchema, StandingValue(p), 9252)
  {
    FingerprintFine(p.generations);
    U64Fine(p.policyGeneration);
    U64Fine(p.authorityGeneration);
    CodeFine(13, StateCode(p.state));
    HistoryFine(p);
    U64Fine(p.coordinatorEpoch);
    U64Fine(p.supersededBy);
    NoTextFine();
    NineFine(FingerprintSchema, U64, U64, Code(13), List(EntrySchema, false), U64, U64, Str, Flag,
             FingerprintValue(p.generations), Num(p.policyGeneration), Num(p.authorityGeneration), Num(StateCode(p.state)),
             Each(EntryValue, p.stateHistory), Num(p.coordinatorEpoch), Num(p.supersededBy), Chars([]),
             Bit(p.hasCommitmentEvidence), 1028);
    RecordFine(StandingSchema.fields, StandingValue(p).items, 1028);
  }

  ghost predicate OriginSmall(p: PlacementPlan) {
    && p.planId < U64_LIMIT && p.fallbackCandidates == [] && p.rejectedAlternatives == []
    && AllU64([p.planGeneration, p.requestId, p.requestGeneration, p.selectedCandidate, p.selectedCandidateGeneration])
    && p.communicationPlan < U64_LIMIT && p.communicationPlanId == [] && p.movementBytes < U64_LIMIT && p.movementSource == []
  }

  lemma MovementFine(p: PlacementPlan)
    requires OriginSmall(p)
    ensures Fine(MovementSchema, MovementValue(p), 40)
  {
    var fs, vs := MovementSchema.fields, MovementValue(p).items;
    U64Fine(p.communicationPlan);
    U64Fine(p.movementBytes);
    NoTextFine();
    assert forall i :: 0 <= i < |fs| ==> Fine(fs[i], vs[i], 8);
    RecordFine(fs, vs, 8);
  }

  ghost predicate ListsSmall(p: PlacementPlan) {
    && |p.bindings| <= 1 && (forall i :: 0 <= i < |p.bindings| ==> BindingSmall(p.bindings[i]))
    && |p.claims| <= 1 && (forall i :: 0 <= i < |p.claims| ==> ClaimSmall(p.claims[i]))
    && |p.selectedFactors| <= 27 && (forall i :: 0 <= i < |p.selectedFactors| ==> FactorSmall(p.selectedFactors[i]))
  }

  lemma ListsFine(p: PlacementPlan)
    requires ListsSmall(p)
    ensures Fine(List(BindingSchema, false), Each(BindingValue, p.bindings), 516)
    ensures Fine(List(ClaimSchema, false), Each(ClaimValue, p.claims), 44)
    ensures Fine(List(FactorSchema, false), Each(FactorValue, p.selectedFactors), 1084)
  {
    forall i | 0 <= i < |p.bindings| ensures Fine(BindingSchema, BindingValue(p.bindings[i]), 512) { BindingFine(p.bindings[i]); }
    EachFine(BindingSchema, false, BindingValue, p.bindings, 512);
    forall i | 0 <= i < |p.claims| ensures Fine(ClaimSchema, ClaimValue(p.claims[i]), 40) { ClaimFine(p.claims[i]); }
    EachFine(ClaimSchema, false, ClaimValue, p.claims, 40);
    forall i | 0 <= i < |p.selectedFactors| ensures Fine(FactorSchema, FactorValue(p.selectedFactors[i]), 40) {
      FactorFine(p.selectedFactors[i]);
    }
    EachFine(FactorSchema, false, FactorValue, p.selectedFactors, 40);
  }

  ghost predicate PlanSmall(p: PlacementPlan) {
    OriginSmall(p) && ListsSmall(p) && StandingSmall(p)
  }

  lemma PlanFine(p: PlacementPlan)
    requires PlanSmall(p)
    ensures Fine(PlanSchema, PlanValue(p), 83268)
  {
    U64Fine(p.planId);
    NumsFine(5, [p.planGeneration, p.requestId, p.requestGeneration, p.selectedCandidate, p.selectedCandidateGeneration]);
    NoNumsFine();
    ListsFine(p);
    MovementFine(p);
    NoRejections(p);
    StandingFine(p);
    NineFine(U64, OriginSchema, List(U64, false), List(BindingSchema, false), List(ClaimSchema, false), MovementSchema,
             List(FactorSchema, false), List(RejectedSchema, false), StandingSchema,
             Num(p.planId), OriginValue(p), Nums([]), Each(BindingValue, p.bindings), Each(ClaimValue, p.claims),
             MovementValue(p), Each(FactorValue, p.selectedFactors), Each(RejectedValue, p.rejectedAlternatives),
             StandingValue(p), 9252);
    RecordFine(PlanSchema.fields, PlanValue(p).items, 9252);
  }

  lemma NoRejections(p: PlacementPlan)
    requires p.rejectedAlternatives == []
    ensures Fine(List(RejectedSchema, false), Each(RejectedValue, p.rejectedAlternatives), 4)
  {
    EachFine(RejectedSchema, false, RejectedValue, p.rejectedAlternatives, 0);
  }

  // --- a snapshot of one plan -----------------------------------------------------------------

  ghost predicate SnapshotSmall(p: Persisted) {
    && AllU64(CountersOf(p)) && p.requests == [] && p.supersessionHistory == [] && p.cancelledRequests == {}
    && |p.plans| <= 1 && (forall i :: 0 <= i < |p.plans| ==> PlanSmall(p.plans[i]))
    && |p.candidateIdentities| <= 1 && (forall i :: 0 <= i < |p.candidateIdentities| ==> IdentitySmall(p.candidateIdentities[i]))
  }

  ghost predicate IdentitySmall(c: CandidateIdentity) {
    && c.candidateId < U64_LIMIT && c.candidateGeneration < U64_LIMIT && c.sourceId < U64_LIMIT
    && c.sourceBootId < U64_LIMIT && c.workerId < U64_LIMIT && c.workerBootId < U64_LIMIT
  }

  lemma IdentityFine(c: CandidateIdentity)
    requires IdentitySmall(c)
    ensures Fine(IdentitySchema, IdentityValue(c), 48)
  {
    var fs, vs := IdentitySchema.fields, IdentityValue(c).items;
    U64Fine(c.candidateId);
    U64Fine(c.candidateGeneration);
    U64Fine(c.sourceId);
    U64Fine(c.sourceBootId);
    U64Fine(c.workerId);
    U64Fine(c.workerBootId);
    assert forall i :: 0 <= i < |fs| ==> Fine(fs[i], vs[i], 8);
    RecordFine(fs, vs, 8);
  }

  lemma PlansFine(ps: seq<PlacementPlan>)
    requires |ps| <= 1 && forall i :: 0 <= i < |ps| ==> PlanSmall(ps[i])
    ensures Fine(List(PlanSchema, true), Each(PlanValue, ps), 83272) && ShapedEach(PlanSchema, PlanValue, ps)
  {
    forall i | 0 <= i < |ps| ensures Fine(PlanSchema, PlanValue(ps[i]), 83268) { PlanFine(ps[i]); }
    EachFine(PlanSchema, true, PlanValue, ps, 83268);
  }

  lemma BodyFine(p: Persisted)
    requires SnapshotSmall(p)
    ensures Fine(BodySchema, BodyValue(p), 249816)
    ensures Shaped(HeadSchema, Nums(CountersOf(p))) && ShapedEach(RequestSchema, RequestValue, p.requests)
    ensures ShapedEach(PlanSchema, PlanValue, p.plans)
  {
    NumsFine(6, CountersOf(p));
    CheckedFine(Words(6), EpochRule, Nums(CountersOf(p)), 48);
    EachFine(RequestSchema, true, RequestValue, p.requests, 0);
    PlansFine(p.plans);
    ThreeFine(HeadSchema, List(RequestSchema, true), List(PlanSchema, true),
              Nums(CountersOf(p)), Each(RequestValue, p.requests), Each(PlanValue, p.plans), 83272);
    CheckedFine(BodyFields, PlanIdRule, BodyValue(p), 249816);
  }

  /** A snapshot of at most one such plan and one candidate is written within every bound of the loader. */
  lemma SnapshotFine(p: Persisted)
    requires SnapshotSmall(p)
    ensures Storable(p, []) && Fine(SnapshotSchema, SnapshotValue(p, []), MAX_PAYLOAD)
  {
    var fs, vs := SnapshotFields.fields, SnapshotValue(p, []).items;
    BodyFine(p);
    forall i | 0 <= i < |p.candidateIdentities| ensures Fine(IdentitySchema, IdentityValue(p.candidateIdentities[i]), 48) {
      IdentityFine(p.candidateIdentities[i]);
    }
    EachFine(IdentitySchema, true, IdentityValue, p.candidateIdentities, 48);
    EachFine(Str, false, Line, p.supersessionHistory, 0);
    NoNumsFine();
    assert forall i :: 0 <= i < |fs| ==> Fine(fs[i], vs[i], 249816);
    RecordFine(fs, vs, 249816);
    CheckedFine(SnapshotFields, CrossRule, SnapshotValue(p, []), 999264);
  }
}
