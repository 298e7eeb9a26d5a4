/** snapshot() and restore(): what a snapshot carries, and that restoring one re-establishes the invariant with
    every plan dead. */
module Snapshots {
  import opened Types
  import opened Demand
  import opened Lifecycle
  import opened OrderedKeys
  import opened SchedulerModel
  import opened Invariants

  // --- ordered enumerations -------------------------------------------------------------------

  lemma InOrderLists<V>(m: map<nat, V>)
    ensures var ks := Ascending(m.Keys, Bound(m.Keys));
      && StrictlyAscending(ks) && (forall k :: k in ks <==> k in m)
      && |InOrder(m)| == |ks| && forall i :: 0 <= i < |ks| ==> InOrder(m)[i] == m[ks[i]]
  {
    AscendingKeys(m.Keys, Bound(m.Keys));
  }

  ghost predicate UniquePlans(ps: seq<PlacementPlan>) {
    forall i, j :: 0 <= i < j < |ps| ==> ps[i].planId != ps[j].planId
  }

  ghost predicate UniqueRequests(rs: seq<SchedulingRequest>) {
    forall i, j :: 0 <= i < j < |rs| ==> rs[i].requestId != rs[j].requestId
  }

  ghost predicate UniqueIdentities(cs: seq<CandidateIdentity>) {
    forall i, j :: 0 <= i < j < |cs| ==> cs[i].candidateId != cs[j].candidateId
  }

  /** A snapshot the scheduler can have produced, apart from its candidate identities. */
  ghost predicate SnapshotOk(p: Persisted) {
    && p.epoch > 0 && p.nextPlanId > 0
    && UniquePlans(p.plans) && UniqueRequests(p.requests)
    && (forall i :: 0 <= i < |p.plans| ==> PlanRecordOk(p, p.plans[i]))
    && (forall i, j :: 0 <= i < |p.plans| && 0 <= j < |p.plans| && i != j ==>
          Apart(p.plans[i].stateHistory, p.plans[j].stateHistory))
    && (forall i :: 0 <= i < |p.requests| ==> DemandError(p.requests[i].demand).None?)
  }

  ghost predicate PlanRecordOk(p: Persisted, plan: PlacementPlan) {
    && plan.planId < p.nextPlanId
    && (NeedsEvidence(plan.state) ==> plan.hasCommitmentEvidence)
    && HistoryOk(plan.stateHistory, plan.state, p.nextEventOrdinal)
  }

  // --- what the restored maps hold ------------------------------------------------------------

  lemma {:induction false} PlanMapKeys(ps: seq<PlacementPlan>, id: nat)
    ensures id in PlanMap(ps) <==> exists i :: 0 <= i < |ps| && ps[i].planId == id
  {
    if ps != [] {
      var front := ps[..|ps| - 1];
      PlanMapKeys(front, id);
      if i: nat :| i < |front| && front[i].planId == id { assert ps[i].planId == id; }
      assert ps[|ps| - 1].planId == id ==> id in PlanMap(ps);
    }
  }

  lemma {:induction false} PlanMapHolds(ps: seq<PlacementPlan>)
    requires UniquePlans(ps)
    ensures forall i :: 0 <= i < |ps| ==> ps[i].planId in PlanMap(ps) && PlanMap(ps)[ps[i].planId] == ps[i]
    ensures forall id :: id in PlanMap(ps) ==> exists i :: 0 <= i < |ps| && ps[i].planId == id
  {
    forall id | id in PlanMap(ps) ensures exists i :: 0 <= i < |ps| && ps[i].planId == id { PlanMapKeys(ps, id); }
    if ps != [] {
      var front, p := ps[..|ps| - 1], ps[|ps| - 1];
      PlanMapHolds(front);
      PlanMapKeys(front, p.planId);
      forall i | 0 <= i < |ps| ensures ps[i].planId in PlanMap(ps) && PlanMap(ps)[ps[i].planId] == ps[i] {
        if i < |ps| - 1 { assert front[i] == ps[i]; }
      }
    }
  }

  lemma {:induction false} RequestMapHolds(rs: seq<SchedulingRequest>)
    requires UniqueRequests(rs)
    ensures forall i :: 0 <= i < |rs| ==> rs[i].requestId in RequestMap(rs) && RequestMap(rs)[rs[i].requestId] == rs[i]
    ensures forall r :: r in RequestMap(rs) ==> exists i :: 0 <= i < |rs| && rs[i].requestId == r
  {
    if rs != [] {
      var front, q := rs[..|rs| - 1], rs[|rs| - 1];
      assert forall i :: 0 <= i < |front| ==> front[i] == rs[i];
      RequestMapHolds(front);
      assert q.requestId !in RequestMap(front);
      forall r | r in RequestMap(rs) ensures exists i :: 0 <= i < |rs| && rs[i].requestId == r {
        if r in RequestMap(front) {
          var i :| 0 <= i < |front| && front[i].requestId == r;
          assert rs[i].requestId == r;
        } else {
          assert rs[|rs| - 1].requestId == r;
        }
      }
    }
  }

  /** The rebuilt index names the largest plan id of each request, in whatever order the plans are listed. */
  lemma {:induction false} LatestMapIsMax(ps: seq<PlacementPlan>)
    ensures forall i :: 0 <= i < |ps| ==> ps[i].requestId in LatestMap(ps) && ps[i].planId <= LatestMap(ps)[ps[i].requestId]
    ensures forall r :: r in LatestMap(ps) ==> exists i :: 0 <= i < |ps| && ps[i].requestId == r && ps[i].planId == LatestMap(ps)[r]
  {
    if ps != [] {
      var front, p := ps[..|ps| - 1], ps[|ps| - 1];
      assert forall i :: 0 <= i < |front| ==> front[i] == ps[i];
      LatestMapIsMax(front);
      forall r | r in LatestMap(ps)
        ensures exists i :: 0 <= i < |ps| && ps[i].requestId == r && ps[i].planId == LatestMap(ps)[r]
      {
        if r in LatestMap(front) && LatestMap(front)[r] == LatestMap(ps)[r] {
          var i :| 0 <= i < |front| && front[i].requestId == r && front[i].planId == LatestMap(front)[r];
          assert ps[i].requestId == r;
        } else {
          assert ps[|ps| - 1].requestId == r;
        }
      }
    }
  }

  // --- restore --------------------------------------------------------------------------------

  lemma LoadedShape(config: SchedulerModel.Config, p: Persisted, id: nat)
    requires SnapshotOk(p)
    ensures ShapeAt(Loaded(config, p), id)
  {
    PlanMapHolds(p.plans);
    LatestMapIsMax(p.plans);
    if id in PlanMap(p.plans) {
      var i :| 0 <= i < |p.plans| && p.plans[i].planId == id;
      assert PlanRecordOk(p, p.plans[i]);
    }
  }

  lemma LoadedSweepable(config: SchedulerModel.Config, p: Persisted)
    requires SnapshotOk(p)
    ensures Sweepable(Loaded(config, p), Requeue)
  {
    var u := Loaded(config, p);
    forall id ensures ShapeAt(u, id) { LoadedShape(config, p, id); }
    forall id ensures SparedAt(u, Requeue, id) {}
    PlanMapHolds(p.plans);
    forall a, b ensures ApartAt(u.plans, a, b) {
      if a in u.plans && b in u.plans && a != b {
        var i :| 0 <= i < |p.plans| && p.plans[i].planId == a;
        var j :| 0 <= j < |p.plans| && p.plans[j].planId == b;
      }
    }
    LatestMapIsMax(p.plans);
    forall r ensures LatestAt(u, r) {
      if r in u.latest {
        var i :| 0 <= i < |p.plans| && p.plans[i].requestId == r && p.plans[i].planId == u.latest[r];
      }
    }
  }

  /** Restoring a well-formed snapshot re-establishes the invariant; every plan in it is dead, terminal states
      are kept, and no candidate or fence survives. */
  lemma RestoreRecovers(s: Sched, p: Persisted)
    requires SnapshotOk(p)
    ensures var t := Restore(s, p);
      && SchedOk(t) && t.candidates == map[] && t.fencedWorkers == {} && t.fencedSources == {}
      && t.plans.Keys == PlanMap(p.plans).Keys
      && (forall id :: id in t.plans ==>
            IsDead(t.plans[id].state) && SameOrigin(PlanMap(p.plans)[id], t.plans[id])
            && t.plans[id].state == if IsTerminal(PlanMap(p.plans)[id].state) then PlanMap(p.plans)[id].state else RevalidationRequired)
  {
    var u, t := Loaded(s.config, p), Restore(s, p);
    LoadedSweepable(s.config, p);
    SweepRestores(u, Requeue);
    RequestMapHolds(p.requests);
    forall r ensures RequestAt(t, r) {
      if r in t.requests { var i :| 0 <= i < |p.requests| && p.requests[i].requestId == r; }
    }
    forall c ensures CandidateAt(t, c) {}
    forall id | id in t.plans
      ensures IsDead(t.plans[id].state) && SameOrigin(u.plans[id], t.plans[id])
        && t.plans[id].state == if IsTerminal(u.plans[id].state) then u.plans[id].state else RevalidationRequired
    {
      SweptAt(Requeue, u.plans, u.nextEventOrdinal, id);
    }
  }

  // --- snapshot -------------------------------------------------------------------------------

  ghost predicate ListsPlans(ps: seq<PlacementPlan>, m: map<nat, PlacementPlan>) {
    && (forall i :: 0 <= i < |ps| ==> ps[i].planId in m && m[ps[i].planId] == ps[i])
    && (forall id :: id in m ==> exists i :: 0 <= i < |ps| && ps[i].planId == id)
  }

  ghost predicate ListsRequests(rs: seq<SchedulingRequest>, m: map<nat, SchedulingRequest>) {
    && (forall i :: 0 <= i < |rs| ==> rs[i].requestId in m && m[rs[i].requestId] == rs[i])
    && (forall r :: r in m ==> exists i :: 0 <= i < |rs| && rs[i].requestId == r)
  }

  lemma PlansListed(s: Sched)
    requires SchedOk(s)
    ensures UniquePlans(InOrder(s.plans)) && ListsPlans(InOrder(s.plans), s.plans)
  {
    var ps, ks := InOrder(s.plans), Ascending(s.plans.Keys, Bound(s.plans.Keys));
    InOrderLists(s.plans);
    forall i | 0 <= i < |ps| ensures ps[i].planId == ks[i] && ks[i] in s.plans && s.plans[ks[i]] == ps[i] {
      assert ks[i] in ks && PlanAt(s, ks[i]);
    }
    forall id | id in s.plans ensures exists i :: 0 <= i < |ps| && ps[i].planId == id {
      assert id in ks;
      var i :| 0 <= i < |ks| && ks[i] == id;
      assert ps[i].planId == id;
    }
  }

  lemma RequestsListed(s: Sched)
    requires SchedOk(s)
    ensures UniqueRequests(InOrder(s.requests)) && ListsRequests(InOrder(s.requests), s.requests)
  {
    var rs, ks := InOrder(s.requests), Ascending(s.requests.Keys, Bound(s.requests.Keys));
    InOrderLists(s.requests);
    forall i | 0 <= i < |rs| ensures rs[i].requestId == ks[i] && ks[i] in s.requests && s.requests[ks[i]] == rs[i] {
      assert ks[i] in ks && RequestAt(s, ks[i]);
    }
    forall r | r in s.requests ensures exists i :: 0 <= i < |rs| && rs[i].requestId == r {
      assert r in ks;
      var i :| 0 <= i < |ks| && ks[i] == r;
      assert rs[i].requestId == r;
    }
  }

  /** A snapshot of a state that meets the invariant is well formed, and the identities it lists are unique
      and are exactly those of the stored candidates. */
  lemma SnapshotIsOk(s: Sched)
    requires SchedOk(s)
    ensures SnapshotOk(Snapshot(s)) && UniqueIdentities(Snapshot(s).candidateIdentities)
    ensures var ids := Snapshot(s).candidateIdentities;
      forall c :: c in s.candidates <==> exists i :: 0 <= i < |ids| && ids[i].candidateId == c
    ensures forall i :: 0 <= i < |Snapshot(s).candidateIdentities| ==> Identifies(s, Snapshot(s).candidateIdentities[i])
  {
    var p := Snapshot(s);
    PlansListed(s);
    RequestsListed(s);
    SnapshotIdentities(s);
    forall i | 0 <= i < |p.plans| ensures PlanRecordOk(p, p.plans[i]) {
      assert PlanAt(s, p.plans[i].planId);
    }
    forall i, j | 0 <= i < |p.plans| && 0 <= j < |p.plans| && i != j
      ensures Apart(p.plans[i].stateHistory, p.plans[j].stateHistory)
    {
      assert ApartAt(s.plans, p.plans[i].planId, p.plans[j].planId);
    }
    forall i | 0 <= i < |p.requests| ensures DemandError(p.requests[i].demand).None? {
      assert RequestAt(s, p.requests[i].requestId);
    }
  }

  // The six ids of the stored candidate.
  ghost predicate Identifies(s: Sched, x: CandidateIdentity) {
    && x.candidateId in s.candidates
    && var c := s.candidates[x.candidateId];
       && x.candidateGeneration == c.candidateGeneration && x.sourceId == c.sourceId && x.sourceBootId == c.sourceBootId
       && x.workerId == c.workerId && x.workerBootId == c.workerBootId
  }

  lemma SnapshotIdentities(s: Sched)
    requires SchedOk(s)
    ensures UniqueIdentities(Snapshot(s).candidateIdentities)
    ensures var ids := Snapshot(s).candidateIdentities;
      forall c :: c in s.candidates <==> exists i :: 0 <= i < |ids| && ids[i].candidateId == c
    ensures forall i :: 0 <= i < |Snapshot(s).candidateIdentities| ==> Identifies(s, Snapshot(s).candidateIdentities[i])
  {
    var cs, ks := Snapshot(s).candidateIdentities, Ascending(s.candidates.Keys, Bound(s.candidates.Keys));
    InOrderLists(s.candidates);
    forall i | 0 <= i < |cs| ensures cs[i].candidateId == ks[i] {
      assert ks[i] in ks && CandidateAt(s, ks[i]);
    }
    forall c ensures c in s.candidates <==> exists i :: 0 <= i < |cs| && cs[i].candidateId == c {
      if c in s.candidates {
        assert c in ks;
        var i :| 0 <= i < |ks| && ks[i] == c;
        assert cs[i].candidateId == c;
      }
    }
  }

  // --- snapshot then restore ------------------------------------------------------------------

  /** The maps rebuilt from a snapshot are the maps it was taken from. */
  lemma SnapshotRestores(s: Sched)
    requires SchedOk(s)
    ensures PlanMap(Snapshot(s).plans) == s.plans && RequestMap(Snapshot(s).requests) == s.requests
    ensures LatestMap(Snapshot(s).plans) == s.latest
  {
    PlansListed(s);
    ListedPlanMap(Snapshot(s).plans, s.plans);
    RequestsListed(s);
    ListedRequestMap(Snapshot(s).requests, s.requests);
    LatestRestores(s);
  }

  lemma ListedPlanMap(ps: seq<PlacementPlan>, m: map<nat, PlacementPlan>)
    requires UniquePlans(ps) && ListsPlans(ps, m)
    ensures PlanMap(ps) == m
  {
    PlanMapHolds(ps);
  }

  lemma ListedRequestMap(rs: seq<SchedulingRequest>, m: map<nat, SchedulingRequest>)
    requires UniqueRequests(rs) && ListsRequests(rs, m)
    ensures RequestMap(rs) == m
  {
    RequestMapHolds(rs);
  }

  ghost predicate IndexedAt(plans: map<nat, PlacementPlan>, latest: map<nat, nat>, id: nat) {
    id in plans ==> plans[id].requestId in latest && id <= latest[plans[id].requestId]
  }

  ghost predicate NamedAt(plans: map<nat, PlacementPlan>, latest: map<nat, nat>, r: nat) {
    r in latest ==> latest[r] in plans && plans[latest[r]].requestId == r
  }

  lemma LatestRestores(s: Sched)
    requires SchedOk(s)
    ensures LatestMap(Snapshot(s).plans) == s.latest
  {
    PlansListed(s);
    forall id ensures IndexedAt(s.plans, s.latest, id) { assert PlanAt(s, id); }
    forall r ensures NamedAt(s.plans, s.latest, r) { assert LatestAt(s, r); }
    LatestListed(InOrder(s.plans), s.plans, s.latest);
  }

  // An index that names the largest id of each request is the one restore rebuilds.
  lemma LatestListed(ps: seq<PlacementPlan>, plans: map<nat, PlacementPlan>, latest: map<nat, nat>)
    requires ListsPlans(ps, plans)
    requires forall id {:trigger IndexedAt(plans, latest, id)} :: IndexedAt(plans, latest, id)
    requires forall r {:trigger NamedAt(plans, latest, r)} :: NamedAt(plans, latest, r)
    ensures LatestMap(ps) == latest
  {
    var m := LatestMap(ps);
    LatestMapIsMax(ps);
    forall r | r in latest ensures r in m && latest[r] <= m[r] {
      assert NamedAt(plans, latest, r);
      var i :| 0 <= i < |ps| && ps[i].planId == latest[r];
    }
    forall r | r in m ensures r in latest && m[r] <= latest[r] {
      var i :| 0 <= i < |ps| && ps[i].requestId == r && ps[i].planId == m[r];
      assert IndexedAt(plans, latest, m[r]);
    }
  }
}
