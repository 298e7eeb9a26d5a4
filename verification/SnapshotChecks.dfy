/** The decoder's checks of a snapshot record, stated on the snapshot: which ones it makes, and what it reads
    back. */
module SnapshotChecks {
  import opened Types
  import opened Demand
  import opened Wire
  import opened Records
  import opened CandidateRecords
  import opened Snapshots
  import opened System
  import opened Durability
  import opened Persistence

  // --- records whose decoder makes no integrity check -----------------------------------------

  /** The schema holds no rule and no list with distinct keys. */
  ghost predicate Unchecked(sc: Schema) {
    match sc
    case Record(fs) => forall i :: 0 <= i < |fs| ==> Unchecked(fs[i])
    case List(elem, unique) => !unique && Unchecked(elem)
    case Checked(_, _) => false
    case _ => true
  }

  lemma {:induction false} UncheckedPasses(sc: Schema, v: Value)
    requires Unchecked(sc) && Shaped(sc, v)
    ensures Passes(Integrity, sc, v)
  {
    match sc
    case Record(fs) =>
      forall i | 0 <= i < |fs| ensures Passes(Integrity, fs[i], v.items[i]) { UncheckedPasses(fs[i], v.items[i]); }
    case List(elem, _) =>
      forall i | 0 <= i < |v.items| ensures Passes(Integrity, elem, v.items[i]) { UncheckedPasses(elem, v.items[i]); }
    case _ =>
  }

  lemma DemandFieldsPass(v: Value)
    requires Shaped(DemandFields, v)
    ensures Passes(Integrity, DemandFields, v)
  {
    assert Unchecked(Code(4)) && Unchecked(Code(8)) && Unchecked(U64) && Unchecked(U32);
    assert Unchecked(AcceleratorSchema) && Unchecked(CapacitySchema) && Unchecked(ResidencySchema);
    assert Unchecked(Words(4)) && Unchecked(Words(3)) && Unchecked(ObjectiveSchema) && Unchecked(List(Code(4), false));
    assert Unchecked(DemandFields);
    UncheckedPasses(DemandFields, v);
  }

  lemma PlainHead()
    ensures Unchecked(OriginSchema) && Unchecked(List(U64, false)) && Unchecked(List(BindingSchema, false))
    ensures Unchecked(List(ClaimSchema, false)) && Unchecked(MovementSchema)
  {
    assert Unchecked(U64) && Unchecked(U32) && Unchecked(Code(5)) && Unchecked(Code(7));
    assert Unchecked(Words(8)) && Unchecked(Words(6));
    assert Unchecked(BindingSchema) && Unchecked(ClaimSchema);
  }

  lemma PlainTail()
    ensures Unchecked(List(RejectedSchema, false)) && Unchecked(StandingSchema)
  {
    assert Unchecked(Code(13)) && Unchecked(Code(18)) && Unchecked(U64) && Unchecked(Words(6)) && Unchecked(FingerprintSchema);
    assert Unchecked(EntrySchema) && Unchecked(RejectedSchema);
    assert Unchecked(List(EntrySchema, false));
  }

  // The fields of a plan other than its factors.
  lemma PlanFieldPasses(i: nat, v: Value)
    requires i < 9 && i != 6 && Shaped(PlanSchema.fields[i], v)
    ensures Passes(Integrity, PlanSchema.fields[i], v)
  {
    PlainHead();
    PlainTail();
    UncheckedPasses(PlanSchema.fields[i], v);
  }

  // --- what each record's checks come to ------------------------------------------------------

  lemma Targetless(d: DemandProfile)
    ensures DemandError(Untargeted(d)) == DemandError(d)
  {}

  lemma DemandIntegrity(d: DemandProfile)
    requires Shaped(DemandSchema, DemandValue(d))
    ensures Passes(Integrity, DemandSchema, DemandValue(d)) <==> DemandError(d).None?
  {
    DemandFieldsPass(DemandValue(d));
    DemandReads(d);
    Targetless(d);
    assert DemandRule(DemandValue(d)) == DemandError(d);
  }

  lemma RequestIntegrity(r: SchedulingRequest)
    requires Shaped(RequestSchema, RequestValue(r))
    ensures Passes(Integrity, RequestSchema, RequestValue(r)) <==> DemandError(r.demand).None?
  {
    var fs, vs := RequestSchema.fields, RequestValue(r).items;
    assert forall i :: 0 <= i < |fs| ==> Shaped(fs[i], vs[i]);
    assert fs[6] == DemandSchema && vs[6] == DemandValue(r.demand);
    DemandIntegrity(r.demand);
    forall i | 0 <= i < 6 ensures Passes(Integrity, fs[i], vs[i]) { UncheckedPasses(fs[i], vs[i]); }
  }

  lemma FactorIntegrity(f: RankFactor)
    requires Shaped(FactorSchema, FactorValue(f))
    ensures Passes(Integrity, FactorSchema, FactorValue(f)) <==> Doubles.IsFinite(f.value)
  {
    UncheckedPasses(FactorFields, FactorValue(f));
  }

  lemma FactorsIntegrity(fs: seq<RankFactor>)
    requires Shaped(List(FactorSchema, false), Each(FactorValue, fs))
    ensures Passes(Integrity, List(FactorSchema, false), Each(FactorValue, fs)) <==> FiniteFactors(fs)
  {
    var vs := Each(FactorValue, fs).items;
    forall i | 0 <= i < |fs| ensures Passes(Integrity, FactorSchema, vs[i]) <==> Doubles.IsFinite(fs[i].value) {
      assert vs[i] == FactorValue(fs[i]);
      FactorIntegrity(fs[i]);
    }
  }

  lemma PlanIntegrity(p: PlacementPlan)
    requires Shaped(PlanSchema, PlanValue(p))
    ensures Passes(Integrity, PlanSchema, PlanValue(p)) <==> FiniteFactors(p.selectedFactors)
  {
    var fs, vs := PlanSchema.fields, PlanValue(p).items;
    assert forall i :: 0 <= i < |fs| ==> Shaped(fs[i], vs[i]);
    forall i | 0 <= i < |fs| && i != 6 ensures Passes(Integrity, fs[i], vs[i]) { PlanFieldPasses(i, vs[i]); }
    assert fs[6] == List(FactorSchema, false) && vs[6] == Each(FactorValue, p.selectedFactors);
    FactorsIntegrity(p.selectedFactors);
  }

  // --- lists and short records of any kind ----------------------------------------------------

  ghost predicate ShapedEach<A>(elem: Schema, f: A -> Value, xs: seq<A>) {
    |xs| < U32_LIMIT && forall i :: 0 <= i < |xs| ==> Shaped(elem, f(xs[i]))
  }

  lemma EachShaped<A>(elem: Schema, unique: bool, f: A -> Value, xs: seq<A>)
    ensures Shaped(List(elem, unique), Each(f, xs)) <==> ShapedEach(elem, f, xs)
  {
    var vs := Each(f, xs).items;
    assert forall i :: 0 <= i < |xs| ==> vs[i] == f(xs[i]);
  }

  ghost predicate DistinctBy<A(!new)>(key: A -> nat, xs: seq<A>) {
    forall i, j :: 0 <= i < j < |xs| ==> key(xs[i]) != key(xs[j])
  }

  lemma EachIntegrity<A(!new)>(elem: Schema, f: A -> Value, xs: seq<A>, ok: A -> bool, key: A -> nat)
    requires ShapedEach(elem, f, xs) && Shaped(List(elem, true), Each(f, xs))
    requires forall i :: 0 <= i < |xs| ==> (Passes(Integrity, elem, f(xs[i])) <==> ok(xs[i])) && Key(f(xs[i])) == Num(key(xs[i]))
    ensures Passes(Integrity, List(elem, true), Each(f, xs)) <==> DistinctBy(key, xs) && forall i :: 0 <= i < |xs| ==> ok(xs[i])
  {
    var vs := Each(f, xs).items;
    assert forall i :: 0 <= i < |xs| ==> vs[i] == f(xs[i]);
  }

  lemma Triple(a: Schema, b: Schema, c: Schema, x: Value, y: Value, z: Value)
    ensures Shaped(Record([a, b, c]), Tuple([x, y, z])) <==> Shaped(a, x) && Shaped(b, y) && Shaped(c, z)
    ensures Shaped(Record([a, b, c]), Tuple([x, y, z])) ==>
      (Passes(Integrity, Record([a, b, c]), Tuple([x, y, z])) <==>
        Passes(Integrity, a, x) && Passes(Integrity, b, y) && Passes(Integrity, c, z))
  {
    var fs, vs := [a, b, c], [x, y, z];
    assert fs[0] == a && fs[1] == b && fs[2] == c && vs[0] == x && vs[1] == y && vs[2] == z;
  }

  lemma Quadruple(a: Schema, b: Schema, c: Schema, d: Schema, x: Value, y: Value, z: Value, w: Value)
    ensures Shaped(Record([a, b, c, d]), Tuple([x, y, z, w])) <==> Shaped(a, x) && Shaped(b, y) && Shaped(c, z) && Shaped(d, w)
    ensures Shaped(Record([a, b, c, d]), Tuple([x, y, z, w])) ==>
      (Passes(Integrity, Record([a, b, c, d]), Tuple([x, y, z, w])) <==>
        Passes(Integrity, a, x) && Passes(Integrity, b, y) && Passes(Integrity, c, z) && Passes(Integrity, d, w))
  {
    var fs, vs := [a, b, c, d], [x, y, z, w];
    assert fs[0] == a && fs[1] == b && fs[2] == c && fs[3] == d;
    assert vs[0] == x && vs[1] == y && vs[2] == z && vs[3] == w;
  }

  // --- the three keyed lists ------------------------------------------------------------------

  lemma RequestsIntegrity(rs: seq<SchedulingRequest>)
    requires ShapedEach(RequestSchema, RequestValue, rs) && Shaped(List(RequestSchema, true), Each(RequestValue, rs))
    ensures Passes(Integrity, List(RequestSchema, true), Each(RequestValue, rs)) <==>
      UniqueRequests(rs) && forall i :: 0 <= i < |rs| ==> DemandError(rs[i].demand).None?
  {
    var ok := (r: SchedulingRequest) => DemandError(r.demand).None?;
    var key := (r: SchedulingRequest) => r.requestId;
    forall i | 0 <= i < |rs|
      ensures (Passes(Integrity, RequestSchema, RequestValue(rs[i])) <==> ok(rs[i])) && Key(RequestValue(rs[i])) == Num(key(rs[i]))
    {
      RequestIntegrity(rs[i]);
    }
    EachIntegrity(RequestSchema, RequestValue, rs, ok, key);
    assert forall i :: 0 <= i < |rs| ==> (ok(rs[i]) <==> DemandError(rs[i].demand).None?) && key(rs[i]) == rs[i].requestId;
  }

  lemma PlansIntegrity(ps: seq<PlacementPlan>)
    requires ShapedEach(PlanSchema, PlanValue, ps) && Shaped(List(PlanSchema, true), Each(PlanValue, ps))
    ensures Passes(Integrity, List(PlanSchema, true), Each(PlanValue, ps)) <==>
      UniquePlans(ps) && forall i :: 0 <= i < |ps| ==> FiniteFactors(ps[i].selectedFactors)
  {
    var ok := (p: PlacementPlan) => forall i :: 0 <= i < |p.selectedFactors| ==> Doubles.IsFinite(p.selectedFactors[i].value);
    var key := (p: PlacementPlan) => p.planId;
    forall i | 0 <= i < |ps|
      ensures (Passes(Integrity, PlanSchema, PlanValue(ps[i])) <==> ok(ps[i])) && Key(PlanValue(ps[i])) == Num(key(ps[i]))
    {
      PlanIntegrity(ps[i]);
    }
    EachIntegrity(PlanSchema, PlanValue, ps, ok, key);
    assert forall i :: 0 <= i < |ps| ==> (ok(ps[i]) <==> FiniteFactors(ps[i].selectedFactors)) && key(ps[i]) == ps[i].planId;
  }

  lemma IdentitiesIntegrity(cs: seq<CandidateIdentity>)
    requires ShapedEach(IdentitySchema, IdentityValue, cs) && Shaped(List(IdentitySchema, true), Each(IdentityValue, cs))
    ensures Passes(Integrity, List(IdentitySchema, true), Each(IdentityValue, cs)) <==> UniqueIdentities(cs)
  {
    var ok := (c: CandidateIdentity) => true;
    var key := (c: CandidateIdentity) => c.candidateId;
    forall i | 0 <= i < |cs|
      ensures Passes(Integrity, IdentitySchema, IdentityValue(cs[i])) && Key(IdentityValue(cs[i])) == Num(key(cs[i]))
    {
      UncheckedPasses(IdentitySchema, IdentityValue(cs[i]));
    }
    EachIntegrity(IdentitySchema, IdentityValue, cs, ok, key);
    assert forall i :: 0 <= i < |cs| ==> key(cs[i]) == cs[i].candidateId;
  }

  // --- reading the snapshot back --------------------------------------------------------------

  /** The sizes and numbers of the snapshot fit the source's integer types. */
  ghost predicate Storable(p: Persisted, order: seq<nat>) {
    && Shaped(HeadSchema, Nums(CountersOf(p)))
    && ShapedEach(RequestSchema, RequestValue, p.requests) && ShapedEach(PlanSchema, PlanValue, p.plans)
    && ShapedEach(IdentitySchema, IdentityValue, p.candidateIdentities)
    && Shaped(List(Str, false), Each(Line, p.supersessionHistory)) && Shaped(List(U64, false), Nums(order))
  }

  lemma RequestsRead(rs: seq<SchedulingRequest>)
    requires ShapedEach(RequestSchema, RequestValue, rs)
    ensures EachOf(RequestOf, Each(RequestValue, rs)) == AllSent(rs)
  {
    var vs := Each(RequestValue, rs).items;
    forall i | 0 <= i < |rs| ensures RequestOf(vs[i]) == AllSent(rs)[i] { RequestReads(rs[i]); }
  }

  function AllSent(rs: seq<SchedulingRequest>): seq<SchedulingRequest> {
    seq(|rs|, i requires 0 <= i < |rs| => Sent(rs[i]))
  }

  lemma PlansRead(ps: seq<PlacementPlan>)
    requires ShapedEach(PlanSchema, PlanValue, ps)
    ensures EachOf(PlanOf, Each(PlanValue, ps)) == ps
  {
    forall i | 0 <= i < |ps| ensures PlanOf(PlanValue(ps[i])) == ps[i] { PlanReads(ps[i]); }
    EachReads(PlanValue, PlanOf, ps);
  }

  lemma IdentitiesRead(cs: seq<CandidateIdentity>)
    ensures EachOf(IdentityOf, Each(IdentityValue, cs)) == cs
  {
    forall i | 0 <= i < |cs| ensures IdentityOf(IdentityValue(cs[i])) == cs[i] { IdentityReads(cs[i]); }
    EachReads(IdentityValue, IdentityOf, cs);
  }

  lemma CountersRead(p: Persisted)
    ensures var h := Nums(CountersOf(p));
      && N(h, 0) == p.epoch && N(h, 1) == p.authority && N(h, 2) == p.nextPlanId && N(h, 3) == p.nextSubmitOrdinal
      && N(h, 4) == p.nextEventOrdinal && N(h, 5) == p.ingestWatermark
  {
    NumsRead(CountersOf(p));
  }

  lemma BodyReads(p: Persisted, order: seq<nat>)
    ensures var v := BodyValue(p);
      && At(v, 0) == Nums(CountersOf(p)) && At(v, 1) == Each(RequestValue, p.requests) && At(v, 2) == Each(PlanValue, p.plans)
    ensures var v := SnapshotValue(p, order);
      && At(v, 0) == BodyValue(p) && At(v, 1) == Each(IdentityValue, p.candidateIdentities)
      && At(v, 2) == Each(Line, p.supersessionHistory) && At(v, 3) == Nums(order)
  {}

  /** What a snapshot loses on the way to the file and back: only the required topology generations. */
  function Reloaded(p: Persisted): Persisted {
    p.(formatVersion := VERSION, requests := AllSent(p.requests))
  }

  lemma SnapshotReads(p: Persisted, order: seq<nat>)
    requires Storable(p, order) && forall id :: id in order <==> id in p.cancelledRequests
    ensures SnapshotOf(SnapshotValue(p, order), VERSION) == Reloaded(p)
  {
    BodyReads(p, order);
    CountersRead(p);
    RequestsRead(p.requests);
    PlansRead(p.plans);
    IdentitiesRead(p.candidateIdentities);
    EachReads(Line, LineOf, p.supersessionHistory);
    NumsRead(order);
  }

  // --- the integrity checks, on the snapshot --------------------------------------------------

  lemma HeadIntegrity(p: Persisted)
    requires Shaped(HeadSchema, Nums(CountersOf(p)))
    ensures Passes(Integrity, HeadSchema, Nums(CountersOf(p))) <==> p.epoch > 0
  {
    CountersRead(p);
    UncheckedPasses(Words(6), Nums(CountersOf(p)));
  }

  ghost predicate BodyOk(p: Persisted) {
    && p.epoch > 0
    && UniqueRequests(p.requests) && (forall i :: 0 <= i < |p.requests| ==> DemandError(p.requests[i].demand).None?)
    && UniquePlans(p.plans) && FinitePlans(p) && PlanIdsBelow(p.nextPlanId, p.plans)
  }

  lemma BodyRules(p: Persisted, order: seq<nat>)
    requires Storable(p, order)
    ensures PlanIdRule(BodyValue(p)).None? <==> PlanIdsBelow(p.nextPlanId, p.plans)
    ensures CrossRule(SnapshotValue(p, order)).None? <==> CrossRecordsOk(p.plans, p.candidateIdentities)
  {
    BodyReads(p, order);
    CountersRead(p);
    PlansRead(p.plans);
    IdentitiesRead(p.candidateIdentities);
  }

  lemma BodyIntegrity(p: Persisted, order: seq<nat>)
    requires Storable(p, order)
    ensures Shaped(BodySchema, BodyValue(p)) && (Passes(Integrity, BodySchema, BodyValue(p)) <==> BodyOk(p))
  {
    EachShaped(RequestSchema, true, RequestValue, p.requests);
    EachShaped(PlanSchema, true, PlanValue, p.plans);
    HeadIntegrity(p);
    RequestsIntegrity(p.requests);
    PlansIntegrity(p.plans);
    BodyRules(p, order);
    Triple(HeadSchema, List(RequestSchema, true), List(PlanSchema, true),
           Nums(CountersOf(p)), Each(RequestValue, p.requests), Each(PlanValue, p.plans));
  }

  /** The integrity checks of persist_load, on the snapshot itself. */
  ghost predicate IntegrityOk(p: Persisted) {
    BodyOk(p) && UniqueIdentities(p.candidateIdentities) && CrossRecordsOk(p.plans, p.candidateIdentities)
  }

  lemma SnapshotIntegrity(p: Persisted, order: seq<nat>)
    requires Storable(p, order)
    ensures Shaped(SnapshotSchema, SnapshotValue(p, order))
    ensures Passes(Integrity, SnapshotSchema, SnapshotValue(p, order)) <==> IntegrityOk(p)
  {
    EachShaped(IdentitySchema, true, IdentityValue, p.candidateIdentities);
    BodyIntegrity(p, order);
    IdentitiesIntegrity(p.candidateIdentities);
    UncheckedPasses(List(Str, false), Each(Line, p.supersessionHistory));
    UncheckedPasses(List(U64, false), Nums(order));
    BodyRules(p, order);
    Quadruple(BodySchema, List(IdentitySchema, true), List(Str, false), List(U64, false), BodyValue(p),
              Each(IdentityValue, p.candidateIdentities), Each(Line, p.supersessionHistory), Nums(order));
  }
}
