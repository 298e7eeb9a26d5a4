/** Where the state machine and the codec meet: which reachable snapshots load, and what recovering from one
    does. */
module Recovery {
  import opened Types
  import opened Demand
  import opened Lifecycle
  import opened OrderedKeys
  import opened Wire
  import opened Ranking
  import opened SchedulerModel
  import opened Snapshots
  import opened Invariants
  import opened System
  import opened SystemInvariant
  import opened Runs
  import opened Safety
  import opened Durability
  import opened Persistence
  import opened SnapshotChecks
  import opened SavedFiles

  // --- every reachable snapshot loads ---------------------------------------------------------

  /** Every stored plan's selected candidate is known. */
  ghost predicate AllKnown(s: Sched) {
    forall id :: id in s.plans ==> s.plans[id].selectedCandidate in s.candidates
  }

  /** Every stored plan's factor costs are finite. */
  ghost predicate AllFinite(s: Sched) {
    forall id :: id in s.plans ==> FiniteFactors(s.plans[id].selectedFactors)
  }

  lemma KnownIffListed(s: Sched, c: nat)
    requires SchedOk(s)
    ensures Lists(Snapshot(s).candidateIdentities, c) <==> c in s.candidates
  {
    SnapshotIdentities(s);
  }

  lemma SavedPlan(s: Sched, i: nat)
    requires SchedOk(s) && i < |Snapshot(s).plans|
    ensures var p := Snapshot(s).plans[i];
      p.planId < s.nextPlanId && (NeedsEvidence(p.state) ==> p.hasCommitmentEvidence)
  {
    PlansListed(s);
    assert PlanAt(s, Snapshot(s).plans[i].planId);
  }

  lemma FiniteIffListed(s: Sched, ps: seq<PlacementPlan>)
    requires ListsPlans(ps, s.plans)
    ensures (forall i :: 0 <= i < |ps| ==> FiniteFactors(ps[i].selectedFactors)) <==> AllFinite(s)
  {
    if forall i :: 0 <= i < |ps| ==> FiniteFactors(ps[i].selectedFactors) {
      forall id | id in s.plans ensures FiniteFactors(s.plans[id].selectedFactors) {
        var i :| 0 <= i < |ps| && ps[i].planId == id;
      }
    }
  }

  lemma SavedBody(s: Sched)
    requires SchedOk(s)
    ensures BodyOk(Snapshot(s)) <==> AllFinite(s)
  {
    var p := Snapshot(s);
    SnapshotIsOk(s);
    PlansListed(s);
    FiniteIffListed(s, p.plans);
    forall i | 0 <= i < |p.plans| ensures p.plans[i].planId < p.nextPlanId { SavedPlan(s, i); }
  }

  lemma SavedCross(s: Sched)
    requires SchedOk(s)
    ensures var p := Snapshot(s); CrossRecordsOk(p.plans, p.candidateIdentities) <==> AllKnown(s)
  {
    var p := Snapshot(s);
    PlansListed(s);
    forall i | 0 <= i < |p.plans| ensures NeedsEvidence(p.plans[i].state) ==> p.plans[i].hasCommitmentEvidence {
      SavedPlan(s, i);
    }
    forall c ensures Lists(p.candidateIdentities, c) <==> c in s.candidates { KnownIffListed(s, c); }
    CrossIffKnown(s, p.plans, p.candidateIdentities);
  }

  lemma CrossIffKnown(s: Sched, ps: seq<PlacementPlan>, ids: seq<CandidateIdentity>)
    requires ListsPlans(ps, s.plans)
    requires forall i :: 0 <= i < |ps| ==> (NeedsEvidence(ps[i].state) ==> ps[i].hasCommitmentEvidence)
    requires forall c {:trigger Lists(ids, c)} :: Lists(ids, c) <==> c in s.candidates
    ensures CrossRecordsOk(ps, ids) <==> AllKnown(s)
  {
    if CrossRecordsOk(ps, ids) {
      forall id | id in s.plans ensures s.plans[id].selectedCandidate in s.candidates {
        var i :| 0 <= i < |ps| && ps[i].planId == id;
      }
    }
  }

  /** Of the loader's integrity checks the scheduler's invariant implies all but two: that every selected
      candidate is still known, and that every stored factor cost is finite. */
  lemma IntegrityIff(s: Sched)
    requires SchedOk(s)
    ensures IntegrityOk(Snapshot(s)) <==> AllKnown(s) && AllFinite(s)
  {
    SavedBody(s);
    SavedCross(s);
    SnapshotIdentities(s);
  }

  /** The snapshot has a size and numbers the file format can write. */
  ghost predicate Writable(p: Persisted, order: seq<nat>) {
    Storable(p, order) && |Payload(p, order)| < U64_LIMIT && Enumerates(order, p.cancelledRequests)
  }

  /** And it stays within the sizes the loader accepts. */
  ghost predicate WithinBounds(p: Persisted, order: seq<nat>) {
    && Writable(p, order) && |Payload(p, order)| <= MAX_PAYLOAD
    && Shaped(SnapshotSchema, SnapshotValue(p, order)) && Passes(Bounds, SnapshotSchema, SnapshotValue(p, order))
  }

  lemma StateLoadsIff(s: Sched, order: seq<nat>)
    requires SchedOk(s) && Writable(Snapshot(s), order)
    ensures !(AllKnown(s) && AllFinite(s)) ==> Load(Save(Snapshot(s), order)).Err?
    ensures WithinBounds(Snapshot(s), order) && AllKnown(s) && AllFinite(s) ==>
      Load(Save(Snapshot(s), order)) == Ok(Reloaded(Snapshot(s)))
  {
    IntegrityIff(s);
    LoadOfSave(Snapshot(s), order);
  }

  /** At any point of any run, recoveries included, the saved snapshot loads exactly when every stored plan's
      candidate is known, that is, has been ingested again since the last recovery, and no stored cost is NaN. */
  lemma SnapshotLoadsIff(ys: seq<Sys>, steps: seq<Step>, k: nat, order: seq<nat>)
    requires IsRun(ys, steps) && Inv(ys[0]) && k < |ys| && WithinBounds(Snapshot(ys[k].sched), order)
    ensures var p := Snapshot(ys[k].sched);
      if AllKnown(ys[k].sched) && AllFinite(ys[k].sched) then Load(Save(p, order)) == Ok(Reloaded(p))
      else Load(Save(p, order)).Err?
  {
    InvAlways(ys, steps, k);
    StateLoadsIff(ys[k].sched, order);
  }

  /** While only scorable candidates are ingested no stored cost is NaN, so that is left to whether the
      candidates are known. */
  lemma ScorableRunIsFinite(ys: seq<Sys>, steps: seq<Step>, k: nat)
    requires IsRun(ys, steps) && Inv(ys[0]) && Durable(ys[0], false) && k < |ys|
    requires OnlyScorable(steps)
    ensures AllFinite(ys[k].sched)
  {
    DurableAlways(ys, steps, k, false);
    forall id | id in ys[k].sched.plans ensures FiniteFactors(ys[k].sched.plans[id].selectedFactors) {
      assert DurablePlan(ys[k].sched, id, false);
    }
  }

  /** Before any recovery every snapshot loads: a fresh scheduler that ingests only scorable candidates never
      saves a file it could not read. */
  lemma ReachableSnapshotLoads(config: SchedulerModel.Config, authority: nat, ys: seq<Sys>, steps: seq<Step>, k: nat, order: seq<nat>)
    requires IsRun(ys, steps) && ys[0] == Start(config, authority) && k < |ys| && SameIncarnation(steps, 0, |steps|)
    requires OnlyScorable(steps)
    requires WithinBounds(Snapshot(ys[k].sched), order)
    ensures Load(Save(Snapshot(ys[k].sched), order)) == Ok(Reloaded(Snapshot(ys[k].sched)))
  {
    StartOk(config, authority);
    FreshRunIsKnown(config, authority, ys, steps, k);
    SnapshotLoadsIff(ys, steps, k, order);
  }

  lemma FreshRunIsKnown(config: SchedulerModel.Config, authority: nat, ys: seq<Sys>, steps: seq<Step>, k: nat)
    requires IsRun(ys, steps) && ys[0] == Start(config, authority) && k < |ys| && SameIncarnation(steps, 0, |steps|)
    requires OnlyScorable(steps)
    ensures AllKnown(ys[k].sched) && AllFinite(ys[k].sched)
  {
    StartOk(config, authority);
    StartDurable(config, authority, true);
    DurableAlways(ys, steps, k, true);
    forall id | id in ys[k].sched.plans
      ensures ys[k].sched.plans[id].selectedCandidate in ys[k].sched.candidates
      ensures FiniteFactors(ys[k].sched.plans[id].selectedFactors)
    {
      assert DurablePlan(ys[k].sched, id, true);
    }
  }

  // --- snapshots that do not load -------------------------------------------------------------

  /** Right after a recovery that brought a plan back, the saved snapshot does not load. */
  lemma RecoveredSnapshotRejected(ys: seq<Sys>, steps: seq<Step>, k: nat, order: seq<nat>)
    requires IsRun(ys, steps) && Inv(ys[0]) && k < |steps| && steps[k].DoRestore?
    requires ys[k + 1].sched.plans != map[] && Writable(Snapshot(ys[k + 1].sched), order)
    ensures Load(Save(Snapshot(ys[k + 1].sched), order)).Err?
  {
    InvAlways(ys, steps, k + 1);
    assert StepAt(ys, steps, k);
    var s := ys[k + 1].sched;
    assert s.candidates == map[];
    var id :| id in s.plans;
    StateLoadsIff(s, order);
  }

  /** A plan whose winner has a NaN score spoils every snapshot saved from then on, until a recovery. */
  lemma NaNPlanSpoilsSaves(ys: seq<Sys>, steps: seq<Step>, i: nat, k: nat, id: nat, order: seq<nat>)
    requires IsRun(ys, steps) && Inv(ys[0]) && i <= k < |ys| && SameIncarnation(steps, i, k)
    requires id in ys[i].sched.plans && !FiniteFactors(ys[i].sched.plans[id].selectedFactors)
    requires Writable(Snapshot(ys[k].sched), order)
    ensures Load(Save(Snapshot(ys[k].sched), order)).Err?
  {
    DeadAbsorbs(ys, steps, i, k);
    assert StillAt(ys[i], ys[k], id);
    InvAlways(ys, steps, k);
    StateLoadsIff(ys[k].sched, order);
  }

  /** And the store step of a winner without a score files such a plan. */
  lemma NaNWinnerStoresNaN(y: Sys, c: nat, ranked: seq<Candidate>, fs: seq<RankFactor>, dependency: nat)
    requires Enabled(y, ScheduleStores(c, ranked, fs, dependency)) && ranked != [] && !Scorable(ranked[0])
    ensures var z := Apply(y, ScheduleStores(c, ranked, fs, dependency));
      y.sched.nextPlanId in z.sched.plans && !FiniteFactors(z.sched.plans[y.sched.nextPlanId].selectedFactors)
  {
    StoredFiniteIff(y.calls[c].request.demand, y.sched.config.weights, ranked[0], fs);
  }

  // --- recovery -------------------------------------------------------------------------------

  lemma SentRequests(rs: seq<SchedulingRequest>)
    ensures UniqueRequests(rs) ==> UniqueRequests(AllSent(rs))
    ensures (forall i :: 0 <= i < |rs| ==> DemandError(rs[i].demand).None?) ==>
      forall i :: 0 <= i < |rs| ==> DemandError(AllSent(rs)[i].demand).None?
  {
    forall i | 0 <= i < |rs| ensures DemandError(AllSent(rs)[i].demand) == DemandError(rs[i].demand) {
      Targetless(rs[i].demand);
    }
  }

  lemma ReloadedIsOk(s: Sched)
    requires SchedOk(s)
    ensures SnapshotOk(Reloaded(Snapshot(s)))
  {
    var p := Snapshot(s);
    SnapshotIsOk(s);
    SentRequests(p.requests);
    assert forall i :: 0 <= i < |p.plans| ==> (PlanRecordOk(Reloaded(p), p.plans[i]) <==> PlanRecordOk(p, p.plans[i]));
  }

  /** Recovery keeps a dead plan's record and makes any other plan dead, by a step the table lists. */
  ghost predicate RecoveredAt(before: map<nat, PlacementPlan>, after: map<nat, PlacementPlan>, id: nat) {
    (id in after <==> id in before) &&
    (id in before ==>
      && IsDead(after[id].state) && SameOrigin(before[id], after[id])
      && (IsDead(before[id].state) ==> after[id] == before[id])
      && CanTransition(before[id].state, after[id].state))
  }

  lemma SweepRecovers(s: Sched, u: Sched, id: nat)
    requires SchedOk(s) && u.plans == s.plans && u.nextEventOrdinal == s.nextEventOrdinal
    ensures RecoveredAt(s.plans, Sweeping(u, Requeue).plans, id)
  {
    assert PlanAt(s, id);
    if id in s.plans { SweptAt(Requeue, u.plans, u.nextEventOrdinal, id); }
  }

  /** What is left of a scheduler that restores the reloaded snapshot of s. */
  ghost function After(s: Sched, r: Sched): Sched {
    Restore(r, Reloaded(Snapshot(s)))
  }

  /** Recovery: every plan comes back dead, and one that was dead comes back untouched; cancellations, plan ids
      and counters are kept; the index of latest plans is rebuilt as it was; no evidence and no fence survives;
      and the invariant holds. */
  lemma RecoveryTheorem(s: Sched, r: Sched)
    requires SchedOk(s)
    ensures var t := After(s, r);
      && SchedOk(t) && (forall id {:trigger RecoveredAt(s.plans, t.plans, id)} :: RecoveredAt(s.plans, t.plans, id))
      && t.cancelled == s.cancelled && t.latest == s.latest && t.supersessionHistory == s.supersessionHistory
      && t.epoch == s.epoch && t.authority == s.authority && t.nextPlanId == s.nextPlanId
      && t.nextSubmitOrdinal == s.nextSubmitOrdinal && t.ingestWatermark == s.ingestWatermark
      && t.nextEventOrdinal >= s.nextEventOrdinal
      && t.candidates == map[] && t.fencedWorkers == {} && t.fencedSources == {}
    ensures After(s, r).requests == SentMap(s.requests)
  {
    var q, t := Reloaded(Snapshot(s)), After(s, r);
    ReloadedIsOk(s);
    RestoreRecovers(r, q);
    SnapshotRestores(s);
    var u := Loaded(r.config, q);
    assert t == Sweeping(u, Requeue) && u.plans == s.plans && u.latest == s.latest;
    OrdinalsClimb(Requeue, u.plans, 0, Bound(u.plans.Keys), u.nextEventOrdinal);
    forall id ensures RecoveredAt(s.plans, t.plans, id) { SweepRecovers(s, u, id); }
    SentRequestMap(Snapshot(s).requests);
  }

  // The requests, each without its required topology generation.
  function SentMap(m: map<nat, SchedulingRequest>): map<nat, SchedulingRequest> {
    map id | id in m :: m[id].(demand := m[id].demand.(requiredTopologyGeneration := 0))
  }

  lemma {:induction false} SentRequestMap(rs: seq<SchedulingRequest>)
    ensures RequestMap(AllSent(rs)) == SentMap(RequestMap(rs))
  {
    if rs != [] {
      var n := |rs| - 1;
      SentRequestMap(rs[..n]);
      assert AllSent(rs)[..n] == AllSent(rs[..n]);
    }
  }

  lemma RecoveredTwice(s: map<nat, PlacementPlan>, t: map<nat, PlacementPlan>, z: map<nat, PlacementPlan>, id: nat)
    requires RecoveredAt(s, t, id) && RecoveredAt(t, z, id)
    ensures (id in z <==> id in t) && (id in t ==> z[id] == t[id])
  {}

  /** Recovering twice changes no plan the second time. */
  lemma SecondRecovery(s: Sched, r: Sched, r': Sched)
    requires SchedOk(s)
    ensures After(After(s, r), r').plans == After(s, r).plans && After(After(s, r), r').latest == s.latest
    ensures After(After(s, r), r').cancelled == s.cancelled
  {
    RecoveryTheorem(s, r);
    RecoveryTheorem(After(s, r), r');
    PlansTwice(s, After(s, r), After(After(s, r), r'));
  }

  lemma PlansTwice(s: Sched, t: Sched, z: Sched)
    requires forall id {:trigger RecoveredAt(s.plans, t.plans, id)} :: RecoveredAt(s.plans, t.plans, id)
    requires forall id {:trigger RecoveredAt(t.plans, z.plans, id)} :: RecoveredAt(t.plans, z.plans, id)
    ensures z.plans == t.plans
  {
    forall id ensures (id in z.plans <==> id in t.plans) && (id in t.plans ==> z.plans[id] == t.plans[id]) {
      RecoveredTwice(s.plans, t.plans, z.plans, id);
    }
  }

  // --- a cancelled request stays unlaunchable -------------------------------------------------

  /** Once a request is cancelled none of its plans is launched, stored before or after. */
  lemma CancelledNeverLaunches(ys: seq<Sys>, steps: seq<Step>, i: nat, j: nat, id: nat)
    requires IsRun(ys, steps) && Inv(ys[0]) && i <= j < |steps| && SameIncarnation(steps, i, j)
    requires id in ys[j].sched.plans && ys[j].sched.plans[id].requestId in ys[i].sched.cancelled
    ensures !Launches(ys[j], steps[j], id)
  {
    InvAlways(ys, steps, j);
    DeadAbsorbs(ys, steps, i, j);
    if Launches(ys[j], steps[j], id) { LaunchNeedsLive(ys[j], steps[j], id); }
  }

  lemma RecoveredNext(s: Sched, ys: seq<Sys>, steps: seq<Step>, i: nat)
    requires IsRun(ys, steps) && i < |steps| && steps[i] == DoRestore(Reloaded(Snapshot(s)))
    ensures ys[i + 1].sched == After(s, ys[i].sched)
  {
    assert StepAt(ys, steps, i);
  }

  /** Nor after the scheduler that cancelled it has crashed and been recovered. */
  lemma CancelledAcrossRecovery(s: Sched, ys: seq<Sys>, steps: seq<Step>, i: nat, j: nat, id: nat)
    requires SchedOk(s) && IsRun(ys, steps) && Inv(ys[0]) && i < j < |steps|
    requires steps[i] == DoRestore(Reloaded(Snapshot(s))) && SameIncarnation(steps, i + 1, j)
    requires id in ys[j].sched.plans && ys[j].sched.plans[id].requestId in s.cancelled
    ensures !Launches(ys[j], steps[j], id)
  {
    RecoveredNext(s, ys, steps, i);
    RecoveryTheorem(s, ys[i].sched);
    CancelledNeverLaunches(ys, steps, i + 1, j, id);
  }

  lemma RecoveredDead(s: Sched, ys: seq<Sys>, steps: seq<Step>, i: nat, id: nat)
    requires SchedOk(s) && IsRun(ys, steps) && i < |steps| && steps[i] == DoRestore(Reloaded(Snapshot(s))) && id in s.plans
    ensures DeadIn(ys[i + 1].sched, id)
  {
    RecoveredNext(s, ys, steps, i);
    RecoveryTheorem(s, ys[i].sched);
    assert RecoveredAt(s.plans, ys[i + 1].sched.plans, id);
  }

  /** And no plan of the old incarnation is launched after it: only a plan that a new schedule call stores. */
  lemma NoLaunchOfRecovered(s: Sched, ys: seq<Sys>, steps: seq<Step>, i: nat, j: nat, id: nat)
    requires SchedOk(s) && IsRun(ys, steps) && Inv(ys[0]) && i < j < |steps|
    requires steps[i] == DoRestore(Reloaded(Snapshot(s))) && SameIncarnation(steps, i + 1, j)
    requires id in s.plans
    ensures !Launches(ys[j], steps[j], id)
  {
    RecoveredDead(s, ys, steps, i, id);
    DeadNeverLaunches(ys, steps, i + 1, j, id);
  }
}
