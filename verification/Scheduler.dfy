/**
  The scheduler facade.  Each method is one block that runs under the mutex: it updates the fields in place, and
  its contract ties the state after to the state before through module SchedulerModel.
*/
module Scheduler {
  import opened Types
  import opened Demand
  import opened Lifecycle
  import opened OrderedKeys
  import opened Selection
  import opened Revalidation
  import opened SchedulerModel

  class Scheduler {
    const config: SchedulerModel.Config
    var epoch: nat
    var authority: nat
    var nextPlanId: nat
    var nextSubmitOrdinal: nat
    var nextEventOrdinal: nat
    var ingestWatermark: nat
    var candidates: map<nat, Candidate>
    var requests: map<nat, SchedulingRequest>
    var plans: map<nat, PlacementPlan>
    var latestPlanByRequest: map<nat, nat>
    var supersessionHistory: seq<Text>
    var cancelledRequests: set<nat>
    var fencedWorkers: set<nat>
    var fencedSources: set<nat>

    ghost function Abs(): Sched
      reads this
    {
      Sched(config, epoch, authority, nextPlanId, nextSubmitOrdinal, nextEventOrdinal, ingestWatermark, candidates,
            requests, plans, latestPlanByRequest, supersessionHistory, cancelledRequests, fencedWorkers, fencedSources)
    }

    constructor (config: SchedulerModel.Config, initialAuthority: nat)
      ensures Abs() == Fresh(config, initialAuthority)
    {
      this.config := config;
      epoch, authority := 1, initialAuthority;
      nextPlanId, nextSubmitOrdinal, nextEventOrdinal, ingestWatermark := 1, 1, 1, 0;
      candidates, requests, plans, latestPlanByRequest := map[], map[], map[], map[];
      supersessionHistory, cancelledRequests, fencedWorkers, fencedSources := [], {}, {}, {};
    }

    // --- the loops over the stored plans ------------------------------------------------------

    /** Walks the plans in id order and forces each one the sweep selects, drawing an ordinal for it. */
    method ForceEach(sw: Sweep)
      modifies this`plans, this`nextEventOrdinal
      ensures Abs() == Sweeping(old(Abs()), sw)
    {
      var n := ComputeBound(plans.Keys);
      ghost var was, start := plans, nextEventOrdinal;
      for id := 0 to n
        invariant PartlySwept(sw, was, plans, id, start, nextEventOrdinal)
      {
        PartStep(sw, was, plans, id, start, nextEventOrdinal);
        if id in plans && Selects(sw, plans[id]) {
          plans := plans[id := Hit(sw, plans[id], nextEventOrdinal)];
          nextEventOrdinal := nextEventOrdinal + 1;
        }
      }
      PartDone(sw, was, plans, n, start, nextEventOrdinal);
    }

    method SetEpoch(newEpoch: nat) returns (error: Option<ErrorCode>)
      modifies this
      ensures var r := SchedulerModel.SetEpoch(old(Abs()), newEpoch);
        if r.Ok? then error == None && Abs() == r.value else error == Some(r.error) && Abs() == old(Abs())
    {
      if epoch == newEpoch { return None; }
      if newEpoch <= epoch { return Some(StaleAuthority); }
      epoch := newEpoch;
      authority := authority + 1;
      ForceEach(Requeue);
      return None;
    }

    method Cancel(requestId: nat)
      modifies this
      ensures Abs() == SchedulerModel.Cancel(old(Abs()), requestId)
    {
      cancelledRequests := cancelledRequests + {requestId};
      ForceEach(Cancelling(requestId));
    }

    method Supersede(oldRequest: nat, newRequest: nat, reason: Text, entry: Text)
      modifies this
      ensures Abs() == SchedulerModel.Supersede(old(Abs()), oldRequest, newRequest, reason, entry)
    {
      var newPlanId := 0;
      if newRequest in latestPlanByRequest { newPlanId := latestPlanByRequest[newRequest]; }
      ForceEach(Superseding(oldRequest, newPlanId, reason));
      supersessionHistory := supersessionHistory + [entry];
    }

    // --- evidence and fences ------------------------------------------------------------------

    method IngestCandidate(candidate: Candidate) returns (error: Option<ErrorCode>)
      modifies this
      ensures var r := SchedulerModel.Ingest(old(Abs()), candidate);
        if r.Ok? then error == None && Abs() == r.value else error == Some(r.error) && Abs() == old(Abs())
    {
      if candidate.candidateId == 0 { return Some(InvalidArgument); }
      if candidate.candidateGeneration == 0 { return Some(InvalidArgument); }
      if candidate.sourceBootId == 0 { return Some(InvalidArgument); }
      if candidate.workerBootId == 0 { return Some(InvalidArgument); }
      if candidate.bindings == [] && candidate.capacity.vramTotal == 0 { return Some(InvalidArgument); }
      if candidate.workerBootId in fencedWorkers { return Some(StaleAuthority); }
      if candidate.sourceBootId in fencedSources { return Some(StaleAuthority); }
      var id := candidate.candidateId;
      if id in candidates {
        if candidate.candidateGeneration <= candidates[id].candidateGeneration { return Some(InvalidArgument); }
        candidates := candidates[id := candidate];
        ingestWatermark := ingestWatermark + 1;
        return None;
      }
      candidates := candidates[id := candidate];
      ingestWatermark := ingestWatermark + 1;
      return None;
    }

    method FenceWorker(boot: nat)
      modifies this
      ensures Abs() == SchedulerModel.FenceWorker(old(Abs()), boot)
    {
      fencedWorkers := fencedWorkers + {boot};
    }

    method FenceSource(boot: nat)
      modifies this
      ensures Abs() == SchedulerModel.FenceSource(old(Abs()), boot)
    {
      fencedSources := fencedSources + {boot};
    }

    method Revalidate(planId: nat, current: GenerationFingerprint) returns (result: Result<RevalidationResult>)
      modifies this
      ensures var r := SchedulerModel.Revalidate(old(Abs()), planId, current);
        if r.Ok? then result.Ok? && result.value.current == r.value.1 && Abs() == r.value.0
        else result == Err(r.error) && Abs() == old(Abs())
    {
      if planId !in plans { return Err(UnknownState); }
      var res := RevalidatePlan(plans[planId], current);
      if !res.current {
        plans := plans[planId := Force(plans[planId], RevalidationRequired, nextEventOrdinal)];
        nextEventOrdinal := nextEventOrdinal + 1;
      }
      return Ok(res);
    }

    // --- schedule -----------------------------------------------------------------------------

    /** The first block: the stored candidates, in id order. */
    method ScheduleSnapshot(request: SchedulingRequest) returns (snapshot: Result<seq<Candidate>>)
      ensures var e := DemandError(request.demand);
        snapshot == if e.Some? then Err(e.value) else Ok(InOrder(candidates))
    {
      var e := Validate(request.demand);
      if e.Some? { return Err(e.value); }
      var cs := Listed(candidates);
      return Ok(cs);
    }

    /** The second block: the plan is built, moved through the pipeline and stored, or the request is kept. */
    method ScheduleStore(request: SchedulingRequest, v: Verdict) returns (plan: Option<PlacementPlan>)
      modifies this
      ensures Abs() == Store(old(Abs()), request, v)
      ensures plan == if v.ranked == [] then None else Some(NewPlan(old(Abs()), request, v))
    {
      if v.ranked == [] {
        requests := requests[request.requestId := request];
        return None;
      }
      var p := BuildPlan(request, v);
      nextPlanId := nextPlanId + 1;
      nextEventOrdinal := nextEventOrdinal + 4;
      plans := plans[p.planId := p];
      latestPlanByRequest := latestPlanByRequest[request.requestId := p.planId];
      return Some(p);
    }

    method BuildPlan(request: SchedulingRequest, v: Verdict) returns (p: PlacementPlan)
      requires v.ranked != []
      ensures p == NewPlan(Abs(), request, v)
    {
      var winner := v.ranked[0];
      var fallbacks := ListFallbacks(v.ranked, config.maxFallback);
      var claims := BuildClaims(winner.bindings);
      var policy := if request.demand.policyGeneration != 0 then request.demand.policyGeneration else config.policyGeneration;
      p := PlacementPlan(
        nextPlanId, 1, request.requestId, request.generation, winner.candidateId, winner.candidateGeneration,
        fallbacks, winner.bindings, claims, winner.communication.planGeneration, [],
        winner.residency.moveBytes, winner.residency.moveSource, false, v.factors, v.rejections,
        Fingerprint(winner, request, v.dependency, epoch), policy, authority, Requested, [], epoch, 0, [], false);
      p := MakeReady(p, nextEventOrdinal);
    }

    // --- commit and handoff -------------------------------------------------------------------

    method CommitBegin(planId: nat) returns (claims: Option<seq<ResourceClaim>>)
      modifies this
      ensures (Abs(), claims) == BeginCommit(old(Abs()), planId)
    {
      if planId !in plans { return None; }
      var plan := plans[planId];
      if plan.state != PlanReady { return None; }
      if plan.requestId in cancelledRequests { return None; }
      if plan.authorityGeneration != authority { return None; }
      plans := plans[planId := Advance(plan, AwaitingResourceCommit, nextEventOrdinal).value];
      nextEventOrdinal := nextEventOrdinal + 1;
      return Some(plan.claims);
    }

    /** The second block, given the broker's answer; `release` is the token to give back once the lock is free. */
    method CommitFinish(planId: nat, claims: seq<ResourceClaim>, answer: BrokerAnswer)
      returns (out: CommitResult, release: Option<Text>)
      modifies this
      ensures var (t, r, releases) := FinishCommit(old(Abs()), planId, claims, answer);
        Abs() == t && out == r && release == if releases then Some(answer.token) else None
    {
      out := CommitResult(false, [], answer.resourceGeneration);
      release := None;
      var releaseOutside := false;
      if planId !in plans {
        releaseOutside := answer.succeeded;
      } else {
        var plan := plans[planId];
        var stale := plan.requestId in cancelledRequests || plan.authorityGeneration != authority
                     || plan.state != AwaitingResourceCommit;
        if stale {
          releaseOutside := answer.succeeded;
        } else if !answer.succeeded {
          plan := Advance(plan, RevalidationRequired, nextEventOrdinal).value;
          nextEventOrdinal := nextEventOrdinal + 1;
          plans := plans[planId := plan];
        } else {
          plan := plan.(hasCommitmentEvidence := true);
          plan := Advance(plan, Committed, nextEventOrdinal).value;
          nextEventOrdinal := nextEventOrdinal + 1;
          plans := plans[planId := plan.(claims := claims)];
          out := CommitResult(true, answer.token, answer.resourceGeneration);
        }
      }
      if releaseOutside && answer.token != [] { release := Some(answer.token); }
    }

    method HandoffBegin(planId: nat) returns (sent: Option<PlacementPlan>)
      modifies this
      ensures (Abs(), sent) == BeginHandoff(old(Abs()), planId)
    {
      if planId !in plans { return None; }
      var plan := plans[planId];
      if plan.state != Committed { return None; }
      if plan.requestId in cancelledRequests { return None; }
      if plan.authorityGeneration != authority { return None; }
      plans := plans[planId := Advance(plan, AwaitingExecution, nextEventOrdinal).value];
      nextEventOrdinal := nextEventOrdinal + 1;
      return Some(plan);
    }

    /** The second block, given the executor's answer.  The ordinal is drawn before the transition is tried, so
        it is spent even when the transition raises. */
    method HandoffFinish(planId: nat, h: ExecutionHandoff) returns (r: Result<ExecutionHandoff>)
      modifies this
      ensures (Abs(), r) == FinishHandoff(old(Abs()), planId, h)
    {
      if planId !in plans { return Ok(h); }
      var plan := plans[planId];
      if plan.requestId in cancelledRequests || plan.authorityGeneration != authority {
        return Ok(h.(authorized := false));
      }
      var ordinal := nextEventOrdinal;
      nextEventOrdinal := nextEventOrdinal + 1;
      if h.authorized {
        var moved := Advance(plan, Active, ordinal);
        if moved.Err? { return Err(moved.error); }
        plans := plans[planId := moved.value];
      } else {
        plans := plans[planId := Force(plan, RevalidationRequired, ordinal)];
      }
      return Ok(h);
    }

    // --- snapshot and restore -----------------------------------------------------------------

    method TakeSnapshot() returns (p: Persisted)
      ensures p == Snapshot(Abs())
    {
      var reqs := Listed(requests);
      var ps := Listed(plans);
      var cands := Listed(candidates);
      var ids: seq<CandidateIdentity> := [];
      for i := 0 to |cands|
        invariant ids == Identities(cands[..i])
      {
        ids := ids + [Identity(cands[i])];
      }
      assert cands[..|cands|] == cands;
      p := Persisted(1, epoch, authority, nextPlanId, nextSubmitOrdinal, nextEventOrdinal, ingestWatermark,
                     reqs, ps, ids, supersessionHistory, cancelledRequests);
    }

    method Restore(p: Persisted)
      modifies this
      ensures Abs() == SchedulerModel.Restore(old(Abs()), p)
    {
      RestoreRequests(p.requests);
      RestorePlans(p.plans);
      RestoreRest(p);
      ForceEach(Requeue);
    }

    method RestoreRest(p: Persisted)
      requires requests == RequestMap(p.requests) && plans == PlanMap(p.plans) && latestPlanByRequest == LatestMap(p.plans)
      modifies this
      ensures Abs() == Loaded(config, p)
    {
      RestoreCounters(p);
      supersessionHistory := p.supersessionHistory;
      cancelledRequests := p.cancelledRequests;
      // Dynamic evidence is never restored as current.
      candidates := map[];
      fencedWorkers := {};
      fencedSources := {};
    }

    method RestoreCounters(p: Persisted)
      modifies this`epoch, this`authority, this`nextPlanId, this`nextSubmitOrdinal, this`nextEventOrdinal, this`ingestWatermark
      ensures epoch == p.epoch && authority == p.authority && nextPlanId == p.nextPlanId
      ensures nextSubmitOrdinal == p.nextSubmitOrdinal && nextEventOrdinal == p.nextEventOrdinal && ingestWatermark == p.ingestWatermark
    {
      epoch := p.epoch;
      authority := p.authority;
      nextPlanId := p.nextPlanId;
      nextSubmitOrdinal := p.nextSubmitOrdinal;
      nextEventOrdinal := p.nextEventOrdinal;
      ingestWatermark := p.ingestWatermark;
    }

    method RestoreRequests(rs: seq<SchedulingRequest>)
      modifies this`requests
      ensures requests == RequestMap(rs)
    {
      requests := map[];
      for i := 0 to |rs|
        invariant requests == RequestMap(rs[..i])
      {
        assert rs[..i + 1][..i] == rs[..i];
        if rs[i].requestId !in requests { requests := requests[rs[i].requestId := rs[i]]; }
      }
      assert rs[..|rs|] == rs;
    }

    method RestorePlans(ps: seq<PlacementPlan>)
      modifies this`plans, this`latestPlanByRequest
      ensures plans == PlanMap(ps) && latestPlanByRequest == LatestMap(ps)
    {
      plans, latestPlanByRequest := map[], map[];
      for i := 0 to |ps|
        invariant plans == PlanMap(ps[..i]) && latestPlanByRequest == LatestMap(ps[..i])
      {
        assert ps[..i + 1][..i] == ps[..i];
        var plan := ps[i];
        var pid := plan.planId;
        if pid !in plans { plans := plans[pid := plan]; }
        if plan.requestId !in latestPlanByRequest || latestPlanByRequest[plan.requestId] < pid {
          latestPlanByRequest := latestPlanByRequest[plan.requestId := pid];
        }
      }
      assert ps[..|ps|] == ps;
    }
  }

  // --- the loop of ForceEach ------------------------------------------------------------------

  // Plan k when the walk has reached plan id `n`.
  ghost predicate WalkedAt(was: map<nat, PlacementPlan>, now: map<nat, PlacementPlan>, after: map<nat, PlacementPlan>, n: nat, k: nat) {
    k in was ==> k in now && k in after && now[k] == if k < n then after[k] else was[k]
  }

  ghost predicate PartlySwept(sw: Sweep, was: map<nat, PlacementPlan>, now: map<nat, PlacementPlan>, n: nat, start: nat, next: nat) {
    && now.Keys == was.Keys && next == OrdinalAt(sw, was, n, start)
    && forall k {:trigger WalkedAt(was, now, Swept(sw, was, start), n, k)} :: WalkedAt(was, now, Swept(sw, was, start), n, k)
  }

  // One turn of the loop.
  function Turned(sw: Sweep, now: map<nat, PlacementPlan>, n: nat, next: nat): map<nat, PlacementPlan> {
    if n in now && Selects(sw, now[n]) then now[n := Hit(sw, now[n], next)] else now
  }

  lemma TurnAt(sw: Sweep, was: map<nat, PlacementPlan>, now: map<nat, PlacementPlan>, n: nat, start: nat, next: nat)
    requires now.Keys == was.Keys && next == OrdinalAt(sw, was, n, start)
    requires n in was ==> now[n] == was[n]
    ensures n in was ==> Turned(sw, now, n, next)[n] == Swept(sw, was, start)[n]
    ensures OrdinalAt(sw, was, n + 1, start) == next + if n in now && Selects(sw, now[n]) then 1 else 0
  {}

  lemma PartStep(sw: Sweep, was: map<nat, PlacementPlan>, now: map<nat, PlacementPlan>, n: nat, start: nat, next: nat)
    requires PartlySwept(sw, was, now, n, start, next)
    ensures PartlySwept(sw, was, Turned(sw, now, n, next), n + 1, start, next + if n in now && Selects(sw, now[n]) then 1 else 0)
  {
    var after, then', m := Swept(sw, was, start), Turned(sw, now, n, next), n + 1;
    assert WalkedAt(was, now, after, n, n);
    TurnAt(sw, was, now, n, start, next);
    forall k ensures WalkedAt(was, then', after, m, k) {
      assert WalkedAt(was, now, after, n, k);
      TurnElsewhere(sw, now, n, next, k);
    }
  }

  lemma TurnElsewhere(sw: Sweep, now: map<nat, PlacementPlan>, n: nat, next: nat, k: nat)
    ensures Turned(sw, now, n, next).Keys == now.Keys && (k in now && k != n ==> Turned(sw, now, n, next)[k] == now[k])
  {}

  lemma PartDone(sw: Sweep, was: map<nat, PlacementPlan>, now: map<nat, PlacementPlan>, n: nat, start: nat, next: nat)
    requires PartlySwept(sw, was, now, n, start, next) && n >= Bound(was.Keys)
    ensures now == Swept(sw, was, start) && next == OrdinalAt(sw, was, Bound(was.Keys), start)
  {
    OrdinalStable(sw, was, Bound(was.Keys), n, start);
    var after := Swept(sw, was, start);
    forall k | k in was ensures now[k] == after[k] { assert WalkedAt(was, now, after, n, k); }
  }

  // --- the lists the blocks build -------------------------------------------------------------

  /** The four transitions of a new plan, each one through the table. */
  method MakeReady(requested: PlacementPlan, o: nat) returns (p: PlacementPlan)
    requires requested.state == Requested && requested.stateHistory == []
    ensures p == requested.(state := PlanReady, stateHistory := FirstHistory(o))
  {
    p := Advance(requested, Discovering, o).value;
    p := Advance(p, FilteringState, o + 1).value;
    p := Advance(p, RankingState, o + 2).value;
    p := Advance(p, PlanReady, o + 3).value;
  }

  method BuildClaims(bindings: seq<DeviceBinding>) returns (claims: seq<ResourceClaim>)
    ensures claims == Claims(bindings)
  {
    claims := [];
    for i := 0 to |bindings|
      invariant claims == Claims(bindings[..i])
    {
      claims := claims + [ResourceClaim(bindings[i].resourceId, bindings[i].resourceGeneration, Accelerator, 1, true)];
    }
    assert bindings[..|bindings|] == bindings;
  }

  method ListFallbacks(ranked: seq<Candidate>, limit: nat) returns (fallbacks: seq<nat>)
    requires ranked != []
    ensures fallbacks == Fallbacks(ranked, limit)
  {
    var maxFallback := if limit > 0 then limit else |ranked| - 1;
    fallbacks := [];
    var i := 1;
    while i < |ranked| && i <= maxFallback
      invariant 1 <= i <= |ranked| && i <= maxFallback + 1
      invariant fallbacks == Ids(ranked[1..i])
    {
      assert ranked[1..i + 1] == ranked[1..i] + [ranked[i]];
      fallbacks := fallbacks + [ranked[i].candidateId];
      i := i + 1;
    }
    assert i == if 1 + maxFallback < |ranked| then 1 + maxFallback else |ranked|;
  }

  // The values of an ordered map in key order.
  method Listed<V>(m: map<nat, V>) returns (vs: seq<V>)
    ensures vs == InOrder(m)
  {
    var n := ComputeBound(m.Keys);
    vs := [];
    for k := 0 to n
      invariant forall j :: j in Ascending(m.Keys, k) ==> j in m
      invariant vs == Pick(m, Ascending(m.Keys, k))
    {
      if k in m { vs := vs + [m[k]]; }
    }
    AscendingStable(m.Keys, Bound(m.Keys), n);
  }
}
