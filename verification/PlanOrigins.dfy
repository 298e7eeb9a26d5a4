/** Where a stored plan comes from: the survivor of its schedule call that was ranked first, whose devices it
    binds and claims and whose evidence its fingerprint names. */
module PlanOrigins {
  import opened Types
  import opened Eligibility
  import opened Ranking
  import opened Constraints
  import opened Sequences
  import opened Sorting
  import opened Selection
  import opened SchedulerModel
  import opened Invariants
  import opened System
  import opened SystemInvariant
  import opened Runs
  import opened Publication

  // --- a plan and its winner ------------------------------------------------------------------

  /** One provisional claim on each bound device, and no other. */
  ghost predicate ClaimsDevices(bs: seq<DeviceBinding>, cs: seq<ResourceClaim>) {
    && |cs| == |bs|
    && forall i :: 0 <= i < |bs| ==>
         && cs[i].resourceId == bs[i].resourceId && cs[i].resourceGeneration == bs[i].resourceGeneration
         && cs[i].kind == Accelerator && cs[i].amount == 1 && cs[i].provisional
  }

  /** Every generation is the one its own evidence of x names; 1 stands for a device that x does not have and for
      a policy that the request does not name. */
  predicate NamesEvidence(g: GenerationFingerprint, x: Candidate, r: SchedulingRequest, dependency: nat) {
    && g.topology == x.locality.topologyGeneration && g.capacity == x.capacity.generation
    && g.reservation == x.reservation.generation && g.congestion == x.congestion.generation
    && g.health == x.health.generation && g.residency == x.residency.residencyGeneration
    && g.communicationPlan == x.communication.planGeneration && g.dependency == dependency
    && (|x.bindings| > 0 ==>
          g.capability == x.bindings[0].capabilityGeneration && g.resource == x.bindings[0].resourceGeneration)
    && (|x.bindings| == 0 ==> g.capability == 1 && g.resource == 1)
    && (r.demand.policyGeneration > 0 ==> g.policy == r.demand.policyGeneration)
    && (r.demand.policyGeneration == 0 ==> g.policy == 1)
  }

  /** The candidate the plan selects is x, and what the plan takes from a candidate it takes from x. */
  ghost predicate Places(p: PlacementPlan, x: Candidate) {
    && p.selectedCandidate == x.candidateId && p.selectedCandidateGeneration == x.candidateGeneration
    && p.bindings == x.bindings && ClaimsDevices(x.bindings, p.claims)
    && p.communicationPlan == x.communication.planGeneration
    && p.movementBytes == x.residency.moveBytes && p.movementSource == x.residency.moveSource
  }

  /** And the rest it takes from the request and from what the call had found. */
  ghost predicate FollowsCall(p: PlacementPlan, o: Origin, config: SchedulerModel.Config) {
    && p.planGeneration == 1 && p.requestId == o.request.requestId && p.requestGeneration == o.request.generation
    && p.rejectedAlternatives == o.rejections
    && p.generations.coordinatorEpoch == p.coordinatorEpoch
    && p.policyGeneration == (if o.request.demand.policyGeneration > 0 then o.request.demand.policyGeneration
                              else config.policyGeneration)
  }

  /** The runners-up in their order, as many as the limit allows; zero allows all. */
  ghost predicate ListsRunnersUp(fallbacks: seq<nat>, ranked: seq<Candidate>, limit: nat) {
    && |fallbacks| < |ranked| && (|fallbacks| == |ranked| - 1 || |fallbacks| == limit > 0)
    && (limit > 0 ==> |fallbacks| <= limit)
    && forall i :: 0 <= i < |fallbacks| ==> fallbacks[i] == ranked[i + 1].candidateId
  }

  ghost predicate ComesFrom(p: PlacementPlan, o: Origin, config: SchedulerModel.Config) {
    && o.ranked != [] && o.ranked[0].workerBootId == o.boot
    && Places(p, o.ranked[0]) && NamesEvidence(p.generations, o.ranked[0], o.request, o.dependency)
    && FollowsCall(p, o, config) && ListsRunnersUp(p.fallbackCandidates, o.ranked, config.maxFallback)
  }

  // --- the schedule call ----------------------------------------------------------------------

  // The recorded answer is the filter's, for a candidate of that id and generation.
  ghost predicate Refused(d: DemandProfile, r: RejectedAlternative) {
    exists x: Candidate, g: Gates {:trigger Filter(d, x, g)} ::
      x.candidateId == r.candidateId && x.candidateGeneration == r.candidateGeneration && Filter(d, x, g) == r.status != Eligible
  }

  /** Every survivor meets what the request asks for, and every rejection was answered by the filter. */
  ghost predicate Sifted(d: DemandProfile, eligible: seq<Candidate>, rejections: seq<RejectedAlternative>) {
    && AscendingIds(eligible)
    && (forall i :: 0 <= i < |eligible| ==> Meets(d, eligible[i]))
    && (forall i :: 0 <= i < |rejections| ==> Refused(d, rejections[i]))
  }

  ghost predicate SiftedAt(y: Sys, c: nat) {
    c in y.calls && y.calls[c].Filtering? ==>
      && Sifted(y.calls[c].request.demand, y.calls[c].eligible, y.calls[c].rejections)
      && AscendingIds(y.calls[c].eligible + y.calls[c].pending)
  }

  /** The plan comes from its recorded call, which ranked the survivors it had found. */
  ghost predicate SoundAt(y: Sys, id: nat) {
    id in y.origin ==>
      && id in y.sched.plans && ComesFrom(y.sched.plans[id], y.origin[id], y.sched.config)
      && Sifted(y.origin[id].request.demand, y.origin[id].eligible, y.origin[id].rejections)
      && IsRanking(y.origin[id].request.demand, y.sched.config.weights, y.origin[id].eligible, y.origin[id].ranked)
      && KeepsFactors(y.sched.plans[id], y.origin[id], y.sched.config)
  }

  // The stored factors are those of the winner's rank.
  ghost predicate KeepsFactors(p: PlacementPlan, o: Origin, config: SchedulerModel.Config) {
    o.ranked != [] && StoredFactors(o.request.demand, config.weights, o.ranked[0], p.selectedFactors)
  }

  ghost predicate Sound(y: Sys) {
    && (forall c {:trigger SiftedAt(y, c)} :: SiftedAt(y, c))
    && (forall id {:trigger SoundAt(y, id)} :: SoundAt(y, id))
  }

  lemma SiftOne(d: DemandProfile, eligible: seq<Candidate>, rejections: seq<RejectedAlternative>, x: Candidate, g: Gates, why: Text)
    requires Sifted(d, eligible, rejections) && AscendingIds(eligible + [x])
    ensures if Filter(d, x, g) == Eligible then Sifted(d, eligible + [x], rejections)
            else Sifted(d, eligible, rejections + [RejectedAlternative(x.candidateId, x.candidateGeneration, Filter(d, x, g), why)])
  {
    EligibleIff(d, x, g);
  }

  lemma TakeOne(eligible: seq<Candidate>, pending: seq<Candidate>)
    requires pending != [] && AscendingIds(eligible + pending)
    ensures AscendingIds(eligible + [pending[0]]) && AscendingIds(eligible + [pending[0]] + pending[1..])
    ensures AscendingIds(eligible + pending[1..])
  {
    var all, n := eligible + pending, |eligible|;
    assert eligible + [pending[0]] == all[..n + 1] && eligible + [pending[0]] + pending[1..] == all;
    forall i, j | 0 <= i < j < |all| - 1 ensures (eligible + pending[1..])[i].candidateId < (eligible + pending[1..])[j].candidateId {
      assert all[if i < n then i else i + 1].candidateId < all[if j < n then j else j + 1].candidateId;
    }
  }

  lemma FilteredSifted(y: Sys, c: nat, gates: Gates, why: Text)
    requires SiftedAt(y, c) && Enabled(y, ScheduleFilters(c, gates, why))
    ensures SiftedAt(y.(calls := y.calls[c := Filtered(y.calls[c], gates, why)]), c)
  {
    var call := y.calls[c];
    TakeOne(call.eligible, call.pending);
    SiftOne(call.request.demand, call.eligible, call.rejections, call.pending[0], gates, why);
  }

  lemma FilterSound(y: Sys, c: nat, gates: Gates, why: Text)
    requires Sound(y) && Enabled(y, ScheduleFilters(c, gates, why))
    ensures Sound(y.(calls := y.calls[c := Filtered(y.calls[c], gates, why)]))
  {
    var z := y.(calls := y.calls[c := Filtered(y.calls[c], gates, why)]);
    forall d ensures SiftedAt(z, d) {
      assert SiftedAt(y, d);
      if d == c { FilteredSifted(y, c, gates, why); }
    }
    forall id ensures SoundAt(z, id) { assert SoundAt(y, id); }
  }

  lemma BeginSound(y: Sys, r: SchedulingRequest)
    requires Inv(y) && Sound(y)
    ensures Sound(Opened(y, Filtering(r, InOrder(y.sched.candidates), [], [])))
  {
    var z := Opened(y, Filtering(r, InOrder(y.sched.candidates), [], []));
    SnapshotAscends(y.sched);
    assert [] + InOrder(y.sched.candidates) == InOrder(y.sched.candidates);
    forall d ensures SiftedAt(z, d) { assert SiftedAt(y, d); }
    forall id ensures SoundAt(z, id) { assert SoundAt(y, id); }
  }

  lemma NewPlanComes(s: Sched, r: SchedulingRequest, v: Verdict, o: Origin)
    requires v.ranked != [] && o.boot == v.ranked[0].workerBootId && o.request == r && o.ranked == v.ranked
    requires o.rejections == v.rejections && o.dependency == v.dependency
    ensures ComesFrom(NewPlan(s, r, v), o, s.config)
  {
    FallbacksFollow(v.ranked, s.config.maxFallback);
  }

  // What Enabled asks of the factors a schedule call brings back.
  ghost predicate BringsFactors(d: DemandProfile, w: Weights, v: Verdict) {
    v.ranked != [] ==> StoredFactors(d, w, v.ranked[0], v.factors)
  }

  lemma NewOriginSound(y: Sys, c: nat, v: Verdict)
    requires SiftedAt(y, c) && c in y.calls && y.calls[c].Filtering? && v.rejections == y.calls[c].rejections && v.ranked != []
    requires IsRanking(y.calls[c].request.demand, y.sched.config.weights, y.calls[c].eligible, v.ranked)
    requires BringsFactors(y.calls[c].request.demand, y.sched.config.weights, v)
    ensures SoundAt(Stored(y, c, v), y.sched.nextPlanId)
  {
    var z, id := Stored(y, c, v), y.sched.nextPlanId;
    assert z.origin[id] == OriginOf(y, c, v) && z.sched.plans[id] == NewPlan(y.sched, y.calls[c].request, v);
    NewPlanComes(y.sched, y.calls[c].request, v, OriginOf(y, c, v));
  }

  lemma OldOriginSound(y: Sys, c: nat, v: Verdict, id: nat)
    requires SoundAt(y, id) && c in y.calls && y.calls[c].Filtering? && (v.ranked == [] || id != y.sched.nextPlanId)
    ensures SoundAt(Stored(y, c, v), id)
  {}

  lemma StoreSound(y: Sys, c: nat, v: Verdict)
    requires Sound(y) && c in y.calls && y.calls[c].Filtering? && v.rejections == y.calls[c].rejections
    requires IsRanking(y.calls[c].request.demand, y.sched.config.weights, y.calls[c].eligible, v.ranked)
    requires BringsFactors(y.calls[c].request.demand, y.sched.config.weights, v)
    ensures Sound(Stored(y, c, v))
  {
    var z := Stored(y, c, v);
    forall d ensures SiftedAt(z, d) { assert SiftedAt(y, d); }
    forall id ensures SoundAt(z, id) {
      assert SoundAt(y, id) && SiftedAt(y, c);
      if v.ranked != [] && id == y.sched.nextPlanId { NewOriginSound(y, c, v); } else { OldOriginSound(y, c, v, id); }
    }
  }

  lemma ComesStays(p: PlacementPlan, q: PlacementPlan, o: Origin, config: SchedulerModel.Config)
    requires ComesFrom(p, o, config) && SameOrigin(p, q)
    ensures ComesFrom(q, o, config)
  {}

  // Plans move on, no call finds anything, and nothing is recorded.
  lemma FrameKeepsSound(y: Sys, step: Step, z: Sys)
    requires Sound(y) && Forward(y, z) && Frame(y, step, z)
    requires !step.ScheduleStores? && !step.ScheduleFilters? && !step.ScheduleBegins?
    ensures Sound(z)
  {
    forall c ensures SiftedAt(z, c) { assert SiftedAt(y, c); }
    forall id ensures SoundAt(z, id) {
      assert SoundAt(y, id) && EvolvedAt(y.sched.plans, z.sched.plans, id);
      if id in y.origin { ComesStays(y.sched.plans[id], z.sched.plans[id], y.origin[id], y.sched.config); }
    }
  }

  lemma RecoveredSound(y: Sys, p: Persisted)
    requires y.calls == map[]
    ensures Sound(Recovered(y, p))
  {
    forall c ensures SiftedAt(Recovered(y, p), c) && SoundAt(Recovered(y, p), c) {}
  }

  lemma ScheduleSound(y: Sys, step: Step)
    requires Inv(y) && Sound(y) && Enabled(y, step) && (step.ScheduleBegins? || step.ScheduleFilters? || step.ScheduleStores?)
    ensures Sound(Apply(y, step))
  {
    match step
    case ScheduleBegins(r) => BeginSound(y, r);
    case ScheduleFilters(c, gates, why) => FilterSound(y, c, gates, why);
    case ScheduleStores(c, ranked, fs, dependency) => StoreSound(y, c, VerdictOf(y.calls[c], ranked, fs, dependency));
  }

  lemma StepSound(y: Sys, step: Step)
    requires Inv(y) && Sound(y) && Enabled(y, step)
    ensures Sound(Apply(y, step))
  {
    if step.DoRestore? {
      RecoveredSound(y, step.snapshot);
    } else if step.ScheduleBegins? || step.ScheduleFilters? || step.ScheduleStores? {
      ScheduleSound(y, step);
    } else {
      StepKeeps(y, step);
      StepFrame(y, step);
      FrameKeepsSound(y, step, Apply(y, step));
    }
  }

  lemma StartSound(config: SchedulerModel.Config, authority: nat)
    ensures Sound(Start(config, authority))
  {
    forall c ensures SiftedAt(Start(config, authority), c) && SoundAt(Start(config, authority), c) {}
  }

  lemma SoundNext(ys: seq<Sys>, steps: seq<Step>, k: nat)
    requires IsRun(ys, steps) && k < |steps| && Inv(ys[k]) && Sound(ys[k])
    ensures Sound(ys[k + 1])
  {
    assert StepAt(ys, steps, k);
    StepSound(ys[k], steps[k]);
  }

  /** At every point of every run the recorded origins are sound; a fresh scheduler has none. */
  lemma {:induction false} SoundAlways(ys: seq<Sys>, steps: seq<Step>, k: nat)
    requires IsRun(ys, steps) && Inv(ys[0]) && Sound(ys[0]) && k < |ys|
    ensures Sound(ys[k])
  {
    if k > 0 {
      SoundAlways(ys, steps, k - 1);
      InvAlways(ys, steps, k - 1);
      SoundNext(ys, steps, k - 1);
    }
  }

  // --- the theorems ---------------------------------------------------------------------------

  // No other survivor is as good.
  ghost predicate Leads(d: DemandProfile, w: Weights, x: Candidate, eligible: seq<Candidate>) {
    forall y :: y in eligible && y != x ==> Precedes(d, w, x, y)
  }

  lemma FirstLeads(d: DemandProfile, w: Weights, eligible: seq<Candidate>, ranked: seq<Candidate>)
    requires IsRanking(d, w, eligible, ranked) && AscendingIds(eligible) && ranked != []
    ensures ranked[0] in eligible && (Comparable(eligible) ==> Leads(d, w, ranked[0], eligible))
  {
    SameMembers(ranked, eligible, ranked[0]);
    if Comparable(eligible) {
      RankingIsOrder(d, w, eligible, ranked);
      RankedSortedIff(d, w, eligible);
      forall y | y in eligible && y != ranked[0] ensures Precedes(d, w, ranked[0], y) {
        SameMembers(ranked, eligible, y);
        HeadIsLeast(Order(d, w), ranked, y);
      }
    }
  }

  /** Every plan with a recorded origin selects a survivor of its schedule call that meets all the request asked
      for and was ranked first: ahead of every other survivor, when these are comparable.  It binds and claims that
      candidate's devices, and its fingerprint names that candidate's evidence. */
  lemma PlanIsItsWinner(ys: seq<Sys>, steps: seq<Step>, k: nat, id: nat)
    requires IsRun(ys, steps) && Inv(ys[0]) && Sound(ys[0]) && k < |ys| && id in ys[k].origin
    ensures id in ys[k].sched.plans && ys[k].origin[id].ranked != []
    ensures var p, o := ys[k].sched.plans[id], ys[k].origin[id];
      var x, d, w := o.ranked[0], o.request.demand, ys[k].sched.config.weights;
      && x in o.eligible && Meets(d, x) && (Comparable(o.eligible) ==> Leads(d, w, x, o.eligible))
      && Places(p, x) && NamesEvidence(p.generations, x, o.request, o.dependency) && x.workerBootId == o.boot
  {
    SoundAlways(ys, steps, k);
    assert SoundAt(ys[k], id);
    var o := ys[k].origin[id];
    FirstLeads(o.request.demand, ys[k].sched.config.weights, o.eligible, o.ranked);
  }

  /** The rest of such a plan is the request's and the call's: its factors are those of the winner's rank, its
      rejections answers of the filter, and its fallbacks the runners-up. */
  lemma PlanIsItsCall(ys: seq<Sys>, steps: seq<Step>, k: nat, id: nat)
    requires IsRun(ys, steps) && Inv(ys[0]) && Sound(ys[0]) && k < |ys| && id in ys[k].origin
    ensures id in ys[k].sched.plans
    ensures var p, o := ys[k].sched.plans[id], ys[k].origin[id];
      && FollowsCall(p, o, ys[k].sched.config) && KeepsFactors(p, o, ys[k].sched.config)
      && ListsRunnersUp(p.fallbackCandidates, o.ranked, ys[k].sched.config.maxFallback)
      && forall i :: 0 <= i < |p.rejectedAlternatives| ==> Refused(o.request.demand, p.rejectedAlternatives[i])
  {
    SoundAlways(ys, steps, k);
    assert SoundAt(ys[k], id);
  }

  lemma OriginNext(ys: seq<Sys>, steps: seq<Step>, k: nat, id: nat)
    requires IsRun(ys, steps) && k < |steps| && !steps[k].DoRestore? && id in ys[k + 1].sched.plans
    requires id !in ys[k].sched.plans || id in ys[k].origin
    ensures id in ys[k + 1].origin
  {
    assert StepAt(ys, steps, k);
    StepFrame(ys[k], steps[k]);
  }

  /** Only a recovery brings back a plan without an origin: whatever was stored since is recorded. */
  lemma {:induction false} StoredHasOrigin(ys: seq<Sys>, steps: seq<Step>, i: nat, j: nat, id: nat)
    requires IsRun(ys, steps) && Inv(ys[0]) && i <= j < |ys| && SameIncarnation(steps, i, j)
    requires id !in ys[i].sched.plans && id in ys[j].sched.plans
    ensures id in ys[j].origin
  {
    if i < j {
      if id in ys[j - 1].sched.plans { StoredHasOrigin(ys, steps, i, j - 1, id); }
      OriginNext(ys, steps, j - 1, id);
    }
  }
}
