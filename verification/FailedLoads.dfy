/** Runs from a fresh scheduler that save a file the loader rejects: after a candidate without a score was ingested,
    and after a recovery. */
module FailedLoads {
  import opened Types
  import opened Doubles
  import opened Demand
  import opened OrderedKeys
  import opened Ranking
  import opened Selection
  import opened SchedulerModel
  import opened Snapshots
  import opened Invariants
  import opened System
  import opened Runs
  import opened Durability
  import opened Persistence
  import opened SnapshotChecks
  import opened Recovery
  import opened Sizes
  import opened Scenario

  /** The numbers of the request and the configuration that end up in a plan fit their integer types. */
  predicate InTypes(config: SchedulerModel.Config, authority: nat, r: SchedulingRequest) {
    && config.policyGeneration < U64_LIMIT && authority < U64_LIMIT && r.requestId < U64_LIMIT && r.generation < U64_LIMIT
    && r.demand.policyGeneration < U64_LIMIT && r.demand.requiredTopologyGeneration < U64_LIMIT
  }

  // --- states small enough to be saved --------------------------------------------------------

  /** One small plan, at most one candidate, and nothing else. */
  ghost predicate SmallState(s: Sched) {
    && s.plans.Keys == {1} && PlanSmall(s.plans[1])
    && s.requests == map[] && s.supersessionHistory == [] && s.cancelled == {}
    && s.epoch < U64_LIMIT && s.authority < U64_LIMIT && s.nextPlanId < U64_LIMIT && s.nextSubmitOrdinal < U64_LIMIT
    && s.nextEventOrdinal < U64_LIMIT && s.ingestWatermark < U64_LIMIT
    && (s.candidates == map[] || (s.candidates.Keys == {1} && IdentitySmall(Identity(s.candidates[1]))))
  }

  lemma NoneInOrder<V>(m: map<nat, V>)
    requires m == map[]
    ensures InOrder(m) == []
  {
    BoundLeast(m.Keys, 0);
  }

  lemma SmallSnapshot(s: Sched)
    requires SmallState(s)
    ensures SnapshotSmall(Snapshot(s))
  {
    NoneInOrder(s.requests);
    OneInOrder(s.plans);
    if s.candidates == map[] { NoneInOrder(s.candidates); } else { OneInOrder(s.candidates); }
    assert CountersOf(Snapshot(s)) ==
      [s.epoch, s.authority, s.nextPlanId, s.nextSubmitOrdinal, s.nextEventOrdinal, s.ingestWatermark];
  }

  lemma SmallIsWritable(s: Sched)
    requires SmallState(s)
    ensures Writable(Snapshot(s), []) && WithinBounds(Snapshot(s), [])
  {
    SmallSnapshot(s);
    SnapshotFine(Snapshot(s));
  }

  lemma ReachedOk(config: SchedulerModel.Config, authority: nat, z: Sys)
    requires Reaches(Start(config, authority), z)
    ensures SchedOk(z.sched)
  {
    var ys, steps :| IsRun(ys, steps) && ys[0] == Start(config, authority) && ys[|steps|] == z;
    StartOk(config, authority);
    InvAlways(ys, steps, |steps|);
  }

  // --- the plan of the scenario is small ------------------------------------------------------

  lemma FactorsSmall(d: DemandProfile, c: Candidate, w: Weights)
    ensures var fs := FactorsFor(d, c, w); |fs| == 27 && forall i :: 0 <= i < |fs| ==> FactorSmall(fs[i])
  {
    RankFactors(d, c, w);
    var fs := Rank(d, c, w).factors;
    forall i | 0 <= i < |fs| ensures FactorSmall(FactorsFor(d, c, w)[i]) { BitsRound(fs[i].value); }
  }

  lemma NewPlanLists(f: Sched, r: SchedulingRequest, score: Double)
    ensures ListsSmall(NewPlan(f, r, LoneVerdict(r, Published(r.demand, score), f.config.weights)))
  {
    var c := Published(r.demand, score);
    FactorsSmall(r.demand, c, f.config.weights);
    assert BindingSmall(c.bindings[0]);
  }

  // The plan the scenario stores.
  function FirstPlan(config: SchedulerModel.Config, authority: nat, r: SchedulingRequest, score: Double): PlacementPlan {
    var c := Published(r.demand, score);
    NewPlan(Fed(config, authority, c), r, LoneVerdict(r, c, config.weights))
  }

  // A plan for a winner whose numbers fit.
  lemma NewPlanStanding(f: Sched, r: SchedulingRequest, v: Verdict)
    requires v.ranked != [] && FingerprintSmall(Fingerprint(v.ranked[0], r, v.dependency, f.epoch))
    requires r.demand.policyGeneration < U64_LIMIT && f.config.policyGeneration < U64_LIMIT
    requires f.authority < U64_LIMIT && f.epoch < U64_LIMIT && f.nextEventOrdinal < 100
    ensures StandingSmall(NewPlan(f, r, v))
  {}

  lemma FirstPlanFingerprint(config: SchedulerModel.Config, authority: nat, r: SchedulingRequest, score: Double)
    requires InTypes(config, authority, r)
    ensures FingerprintSmall(Fingerprint(Published(r.demand, score), r, 1, 1))
  {}

  lemma NewPlanOrigin(f: Sched, r: SchedulingRequest, v: Verdict, c: Candidate)
    requires v.ranked == [c] && v.rejections == [] && f.nextPlanId < U64_LIMIT
    requires r.requestId < U64_LIMIT && r.generation < U64_LIMIT && IdentitySmall(Identity(c))
    requires c.communication.planGeneration < U64_LIMIT && c.residency.moveBytes < U64_LIMIT && c.residency.moveSource == []
    ensures OriginSmall(NewPlan(f, r, v))
  {
    assert v.ranked[1..] == [];
  }

  lemma PublishedNumbers(d: DemandProfile, score: Double)
    ensures var c := Published(d, score);
      && IdentitySmall(Identity(c))
      && c.communication.planGeneration < U64_LIMIT && c.residency.moveBytes < U64_LIMIT && c.residency.moveSource == []
  {}

  lemma FirstPlanSmall(config: SchedulerModel.Config, authority: nat, r: SchedulingRequest, score: Double)
    requires InTypes(config, authority, r)
    ensures PlanSmall(FirstPlan(config, authority, r, score)) && IdentitySmall(Identity(Published(r.demand, score)))
  {
    var c := Published(r.demand, score);
    var f, v := Fed(config, authority, c), LoneVerdict(r, c, config.weights);
    NewPlanLists(f, r, score);
    PublishedNumbers(r.demand, score);
    NewPlanOrigin(f, r, v, c);
    FirstPlanFingerprint(config, authority, r, score);
    NewPlanStanding(f, r, v);
  }

  lemma PlannedSmall(config: SchedulerModel.Config, authority: nat, r: SchedulingRequest, score: Double)
    requires InTypes(config, authority, r)
    ensures SmallState(Planned(config, authority, r, score))
  {
    PlanOfPlanned(config, authority, r, score);
    FirstPlanSmall(config, authority, r, score);
    var s := Planned(config, authority, r, score);
    assert s.plans[1] == FirstPlan(config, authority, r, score);
    assert s.candidates[1] == Published(r.demand, score);
  }

  lemma PlannedFiniteIff(config: SchedulerModel.Config, authority: nat, r: SchedulingRequest, score: Double)
    ensures var s := Planned(config, authority, r, score);
      AllKnown(s) && (AllFinite(s) <==> Scorable(Published(r.demand, score)))
  {
    var c := Published(r.demand, score);
    PlanOfPlanned(config, authority, r, score);
    PlainFactorsStored(r.demand, c, config.weights);
    StoredFiniteIff(r.demand, config.weights, c, FactorsFor(r.demand, c, config.weights));
    assert 1 in Planned(config, authority, r, score).plans;
  }

  // --- a candidate without a score ------------------------------------------------------------

  /** For every request with a valid demand a fresh scheduler has a run that ingests a candidate with a NaN health
      score, schedules the request on it, and saves a file that does not load. */
  lemma NaNSaveFails(config: SchedulerModel.Config, authority: nat, r: SchedulingRequest) returns (z: Sys)
    requires DemandError(r.demand).None? && InTypes(config, authority, r)
    ensures Reaches(Start(config, authority), z) && 1 in z.sched.plans && z.sched.plans[1].state == PlanReady
    ensures Load(Save(Snapshot(z.sched), [])).Err?
  {
    z := PlannedIsReachable(config, authority, r, NAN_BITS);
    ReachedOk(config, authority, z);
    PlanOfPlanned(config, authority, r, NAN_BITS);
    PlannedSmall(config, authority, r, NAN_BITS);
    SmallIsWritable(z.sched);
    NaNHasNoScore(r.demand);
    PlannedFiniteIff(config, authority, r, NAN_BITS);
    StateLoadsIff(z.sched, []);
  }

  // --- a recovery -----------------------------------------------------------------------------

  predicate SameMarks(p: PlacementPlan, q: PlacementPlan) {
    q.supersededBy == p.supersededBy && q.supersessionReason == p.supersessionReason
  }

  lemma CommittedState(s: Sched)
    requires SmallState(s) && MayCommit(s, 1) && s.nextEventOrdinal < 100
    ensures var t := CommittedFrom(s, 1);
      && t.plans.Keys == {1} && SameOrigin(s.plans[1], t.plans[1]) && SameMarks(s.plans[1], t.plans[1])
      && t == s.(plans := t.plans, nextEventOrdinal := s.nextEventOrdinal + 2)
  {}

  lemma CommittedSmall(s: Sched)
    requires SmallState(s) && MayCommit(s, 1) && SchedOk(CommittedFrom(s, 1)) && s.nextEventOrdinal < 100
    ensures SmallState(CommittedFrom(s, 1)) && CommittedFrom(s, 1).nextEventOrdinal < 102
  {
    CommittedState(s);
    SmallStays(s, CommittedFrom(s, 1));
  }

  // A small state whose one plan moves on is small.
  lemma SmallStays(s: Sched, t: Sched)
    requires SmallState(s) && SchedOk(t) && t.plans.Keys == {1} && t.nextEventOrdinal < U64_LIMIT
    requires SameOrigin(s.plans[1], t.plans[1]) && SameMarks(s.plans[1], t.plans[1])
    requires t.requests == s.requests && t.supersessionHistory == s.supersessionHistory && t.cancelled == s.cancelled
    requires t.epoch == s.epoch && t.authority == s.authority && t.nextPlanId == s.nextPlanId
    requires t.nextSubmitOrdinal == s.nextSubmitOrdinal && t.ingestWatermark == s.ingestWatermark
    requires t.candidates == s.candidates || t.candidates == map[]
    ensures SmallState(t)
  {
    assert PlanAt(t, 1);
  }

  lemma {:induction false} OrdinalAtMost(sw: Sweep, plans: map<nat, PlacementPlan>, n: nat, start: nat)
    ensures OrdinalAt(sw, plans, n, start) <= start + n
  {
    if n > 0 { OrdinalAtMost(sw, plans, n - 1, start); }
  }

  lemma RestoredState(s: Sched)
    requires SmallState(s) && SchedOk(s) && s.nextEventOrdinal < 102
    ensures SmallState(After(s, s)) && SchedOk(After(s, s)) && After(s, s).candidates == map[]
  {
    var t, q := After(s, s), Reloaded(Snapshot(s));
    RecoveryTheorem(s, s);
    assert RecoveredAt(s.plans, t.plans, 1) && forall id :: id in t.plans ==> RecoveredAt(s.plans, t.plans, id);
    NoneInOrder(s.requests);
    RestoredCounters(s);
    SmallStays(s, t);
  }

  lemma RestoredCounters(s: Sched)
    requires SmallState(s) && SchedOk(s) && s.nextEventOrdinal < 102
    ensures var t := After(s, s);
      t.nextEventOrdinal < U64_LIMIT && t.requests == map[] && 1 in t.plans && SameMarks(s.plans[1], t.plans[1])
  {
    var u := Loaded(s.config, Reloaded(Snapshot(s)));
    SnapshotRestores(s);
    NoneInOrder(s.requests);
    SweptAt(Requeue, s.plans, s.nextEventOrdinal, 1);
    BoundLeast(s.plans.Keys, 2);
    OrdinalAtMost(Requeue, s.plans, Bound(s.plans.Keys), s.nextEventOrdinal);
    assert u.plans == s.plans && u.requests == map[];
  }

  /** And a run that commits the plan, saves a file that loads, recovers from it, and saves again: the second file
      does not load. */
  lemma RecoveredSaveFails(config: SchedulerModel.Config, authority: nat, r: SchedulingRequest) returns (y: Sys, q: Persisted, z: Sys)
    requires DemandError(r.demand).None? && InTypes(config, authority, r)
    ensures Reaches(Start(config, authority), y) && Load(Save(Snapshot(y.sched), [])) == Ok(q)
    ensures Enabled(y, DoRestore(q)) && z == Apply(y, DoRestore(q)) && Reaches(Start(config, authority), z)
    ensures Load(Save(Snapshot(z.sched), [])).Err?
  {
    y := CommittedSaves(config, authority, r);
    q := Reloaded(Snapshot(y.sched));
    ReloadedIsOk(y.sched);
    ReachesNext(Start(config, authority), y, DoRestore(q));
    z := Recovered(y, q);
    RestoredState(y.sched);
    RestoredRejected(y.sched);
  }

  lemma CommittedSaves(config: SchedulerModel.Config, authority: nat, r: SchedulingRequest) returns (y: Sys)
    requires DemandError(r.demand).None? && InTypes(config, authority, r)
    ensures Reaches(Start(config, authority), y) && y.calls == map[] && SchedOk(y.sched)
    ensures SmallState(y.sched) && y.sched.nextEventOrdinal < 102
    ensures Load(Save(Snapshot(y.sched), [])) == Ok(Reloaded(Snapshot(y.sched)))
  {
    PlanOfPlanned(config, authority, r, 0);
    y := CommittedRun(config, authority, r);
    ReachedOk(config, authority, y);
    PlannedSmall(config, authority, r, 0);
    CommittedSmall(Planned(config, authority, r, 0));
    SmallIsWritable(y.sched);
    CommittedLoads(config, authority, r);
    StateLoadsIff(y.sched, []);
  }

  lemma CommittedLoads(config: SchedulerModel.Config, authority: nat, r: SchedulingRequest)
    requires InTypes(config, authority, r) && MayCommit(Planned(config, authority, r, 0), 1)
    ensures var t := CommittedFrom(Planned(config, authority, r, 0), 1); AllKnown(t) && AllFinite(t)
  {
    var s := Planned(config, authority, r, 0);
    PlannedSmall(config, authority, r, 0);
    PlannedEvents(config, authority, r, 0);
    ZeroIsScorable(r.demand, 1);
    PlannedFiniteIff(config, authority, r, 0);
    CommittedState(s);
    StaysLoadable(s, CommittedFrom(s, 1));
  }

  lemma PlannedEvents(config: SchedulerModel.Config, authority: nat, r: SchedulingRequest, score: Double)
    ensures Planned(config, authority, r, score).nextEventOrdinal == 5
  {
    PlanOfPlanned(config, authority, r, score);
  }

  lemma StaysLoadable(s: Sched, t: Sched)
    requires s.plans.Keys == t.plans.Keys == {1} && SameOrigin(s.plans[1], t.plans[1]) && t.candidates == s.candidates
    requires AllKnown(s) && AllFinite(s)
    ensures AllKnown(t) && AllFinite(t)
  {
    assert 1 in s.plans;
  }

  lemma RestoredRejected(s: Sched)
    requires SmallState(After(s, s)) && SchedOk(After(s, s)) && After(s, s).candidates == map[]
    ensures Load(Save(Snapshot(After(s, s)), [])).Err?
  {
    SmallIsWritable(After(s, s));
    assert 1 in After(s, s).plans;
    StateLoadsIff(After(s, s), []);
  }
}
