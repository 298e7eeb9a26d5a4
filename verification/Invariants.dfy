/** What every locked block of the scheduler keeps true of its state.  Each clause is a predicate of one plan
    (or one pair of plans), so a proof names the instances it uses. */
module Invariants {
  import opened Types
  import opened Demand
  import opened Lifecycle
  import opened OrderedKeys
  import opened SchedulerModel

  // --- the state invariant --------------------------------------------------------------------

  /** Filed under its own id below the counter, carrying evidence whenever it is past commitment, with a well
      formed history, and not newer than the latest plan of its request. */
  ghost predicate PlanShape(s: Sched, p: PlacementPlan, id: nat) {
    && p.planId == id < s.nextPlanId
    && (NeedsEvidence(p.state) ==> p.hasCommitmentEvidence)
    && HistoryOk(p.stateHistory, p.state, s.nextEventOrdinal)
    && p.requestId in s.latest && id <= s.latest[p.requestId]
  }

  /** Live or dead; if live, stamped with the current authority and epoch; if it holds or awaits a
      commitment, its request is not cancelled. */
  ghost predicate PlanStanding(s: Sched, p: PlacementPlan) {
    && (IsLive(p.state) || IsDead(p.state))
    && (IsLive(p.state) ==>
          p.authorityGeneration == s.authority && p.coordinatorEpoch == s.epoch && p.generations.coordinatorEpoch == s.epoch)
    && (IsEngaged(p.state) ==> p.requestId !in s.cancelled)
  }

  ghost predicate ShapeAt(s: Sched, id: nat) {
    id in s.plans ==> PlanShape(s, s.plans[id], id)
  }

  ghost predicate PlanAt(s: Sched, id: nat) {
    id in s.plans ==> PlanShape(s, s.plans[id], id) && PlanStanding(s, s.plans[id])
  }

  // No event ordinal occurs in two plans.
  ghost predicate ApartAt(plans: map<nat, PlacementPlan>, a: nat, b: nat) {
    a in plans && b in plans && a != b ==> Apart(plans[a].stateHistory, plans[b].stateHistory)
  }

  ghost predicate LatestAt(s: Sched, r: nat) {
    r in s.latest ==> s.latest[r] in s.plans && s.plans[s.latest[r]].requestId == r
  }

  ghost predicate RequestAt(s: Sched, r: nat) {
    r in s.requests ==> s.requests[r].requestId == r && DemandError(s.requests[r].demand).None?
  }

  ghost predicate CandidateAt(s: Sched, c: nat) {
    c in s.candidates ==> s.candidates[c].candidateId == c
  }

  ghost predicate HistoriesApart(plans: map<nat, PlacementPlan>) {
    forall a, b {:trigger ApartAt(plans, a, b)} :: ApartAt(plans, a, b)
  }

  ghost predicate LatestIndexes(s: Sched) {
    forall r {:trigger LatestAt(s, r)} :: LatestAt(s, r)
  }

  ghost predicate SchedOk(s: Sched) {
    && s.epoch > 0 && s.nextPlanId > 0
    && (forall id {:trigger PlanAt(s, id)} :: PlanAt(s, id))
    && HistoriesApart(s.plans) && LatestIndexes(s)
    && (forall r {:trigger RequestAt(s, r)} :: RequestAt(s, r))
    && (forall c {:trigger CandidateAt(s, c)} :: CandidateAt(s, c))
  }

  // --- how one block may move a plan ----------------------------------------------------------

  /** Along the live pipeline one step at a time; into RevalidationRequired from anywhere; into Cancelled or
      Superseded from a state that is not terminal. */
  predicate Progress(from: LifecycleState, to: LifecycleState) {
    || from == to
    || to == RevalidationRequired
    || (!IsTerminal(from) && (to == Cancelled || to == Superseded))
    || (IsLive(from) && IsLive(to) && Position(to) == Position(from) + 1)
  }

  /** Nothing of a stored plan changes but its state, its history, its supersession marks and its commitment
      evidence, which is never withdrawn. */
  predicate SameOrigin(p: PlacementPlan, q: PlacementPlan) {
    && q == p.(state := q.state, stateHistory := q.stateHistory, supersededBy := q.supersededBy,
               supersessionReason := q.supersessionReason, hasCommitmentEvidence := q.hasCommitmentEvidence)
    && (p.hasCommitmentEvidence ==> q.hasCommitmentEvidence)
  }

  /** A plan that changes state records the new one, while there is room; a plan that does not, records
      nothing. */
  predicate Traced(p: PlacementPlan, q: PlacementPlan) {
    var h, k := p.stateHistory, q.stateHistory;
    if q.state == p.state || |h| >= MAX_HISTORY then k == h
    else |k| == |h| + 1 && k[..|h|] == h && k[|h|].state == q.state
  }

  ghost predicate EvolvedAt(before: map<nat, PlacementPlan>, after: map<nat, PlacementPlan>, id: nat) {
    id in before ==>
      && id in after && SameOrigin(before[id], after[id]) && Progress(before[id].state, after[id].state)
      && Traced(before[id], after[id])
  }

  ghost predicate Evolves(before: map<nat, PlacementPlan>, after: map<nat, PlacementPlan>) {
    forall id {:trigger EvolvedAt(before, after, id)} :: EvolvedAt(before, after, id)
  }

  // No plan appears, and each keeps its state or dies.
  ghost predicate KilledAt(before: map<nat, PlacementPlan>, after: map<nat, PlacementPlan>, id: nat) {
    id in after ==> id in before && (after[id].state == before[id].state || IsDead(after[id].state))
  }

  ghost predicate OnlyKills(before: map<nat, PlacementPlan>, after: map<nat, PlacementPlan>) {
    forall id {:trigger KilledAt(before, after, id)} :: KilledAt(before, after, id)
  }

  ghost predicate Keeps(s: Sched, t: Sched) {
    SchedOk(t) && Evolves(s.plans, t.plans) && t.candidates == s.candidates && t.config == s.config
  }

  // The parts of the state the plan clauses do not mention are unchanged.
  predicate SameRecords(s: Sched, t: Sched) {
    t.requests == s.requests && t.candidates == s.candidates && t.config == s.config
  }

  lemma RecordsKeep(s: Sched, t: Sched)
    requires SchedOk(s) && SameRecords(s, t)
    ensures forall r {:trigger RequestAt(t, r)} :: RequestAt(t, r)
    ensures forall c {:trigger CandidateAt(t, c)} :: CandidateAt(t, c)
  {
    forall r ensures RequestAt(t, r) { assert RequestAt(s, r); }
    forall c ensures CandidateAt(t, c) { assert CandidateAt(s, c); }
  }

  // --- one plan changed -----------------------------------------------------------------------

  /** q replaces p, its state changed and recorded at ordinal o. */
  predicate Rewrites(p: PlacementPlan, q: PlacementPlan, o: nat) {
    && SameOrigin(p, q) && Progress(p.state, q.state)
    && (NeedsEvidence(q.state) ==> q.hasCommitmentEvidence)
    && q.stateHistory == (if p.state == q.state then p.stateHistory else Append(p.stateHistory, HistoryEntry(q.state, o)))
  }

  function Replaced(s: Sched, id: nat, q: PlacementPlan): Sched {
    s.(plans := s.plans[id := q], nextEventOrdinal := s.nextEventOrdinal + 1)
  }

  lemma RewriteShape(s: Sched, p: PlacementPlan, q: PlacementPlan, id: nat)
    requires PlanShape(s, p, id) && PlanStanding(s, p) && Rewrites(p, q, s.nextEventOrdinal)
    requires IsEngaged(q.state) ==> q.requestId !in s.cancelled
    ensures var t := Replaced(s, id, q); PlanShape(t, q, id) && PlanStanding(t, q)
  {
    AppendKeepsHistory(p.stateHistory, p.state, HistoryEntry(q.state, s.nextEventOrdinal), s.nextEventOrdinal);
  }

  lemma AppendsApart(h: seq<HistoryEntry>, k: seq<HistoryEntry>, next: nat, e: HistoryEntry, f: HistoryEntry)
    requires Apart(h, k) && Below(h, next) && Below(k, next) && e.ordinal >= next && f.ordinal >= next
    ensures Apart(Append(h, e), k) && Apart(k, Append(h, e)) && Apart(h, Append(k, f)) && Apart(Append(k, f), h)
    ensures e.ordinal != f.ordinal ==> Apart(Append(h, e), Append(k, f)) && Apart(Append(k, f), Append(h, e))
  {}

  lemma RewriteApart(s: Sched, id: nat, q: PlacementPlan, a: nat, b: nat)
    requires SchedOk(s) && id in s.plans && Rewrites(s.plans[id], q, s.nextEventOrdinal)
    ensures ApartAt(s.plans[id := q], a, b)
  {
    assert ApartAt(s.plans, a, b) && PlanAt(s, a) && PlanAt(s, b);
    if a in s.plans && b in s.plans && a != b {
      var e := HistoryEntry(q.state, s.nextEventOrdinal);
      AppendsApart(s.plans[a].stateHistory, s.plans[b].stateHistory, s.nextEventOrdinal, e, e);
    }
  }

  lemma LaterPlan(s: Sched, t: Sched, id: nat)
    requires PlanAt(s, id) && id in s.plans && id in t.plans && t.plans[id] == s.plans[id]
    requires t.nextPlanId >= s.nextPlanId && t.nextEventOrdinal >= s.nextEventOrdinal
    requires t.latest == s.latest && t.authority == s.authority && t.epoch == s.epoch && t.cancelled == s.cancelled
    ensures PlanAt(t, id)
  {}

  /** Replacing one plan by a legal rewrite keeps the invariant. */
  lemma RewriteKeeps(s: Sched, id: nat, q: PlacementPlan)
    requires SchedOk(s) && id in s.plans && Rewrites(s.plans[id], q, s.nextEventOrdinal)
    requires IsEngaged(q.state) ==> q.requestId !in s.cancelled
    ensures Keeps(s, Replaced(s, id, q))
  {
    var t := Replaced(s, id, q);
    RecordsKeep(s, t);
    forall a ensures PlanAt(t, a) {
      assert PlanAt(s, a);
      if a == id { RewriteShape(s, s.plans[id], q, id); } else if a in s.plans { LaterPlan(s, t, a); }
    }
    forall a, b ensures ApartAt(t.plans, a, b) { RewriteApart(s, id, q, a, b); }
    forall r ensures LatestAt(t, r) { assert LatestAt(s, r); }
    forall a ensures EvolvedAt(s.plans, t.plans, a) {}
  }

  lemma RecordRewrites(p: PlacementPlan, to: LifecycleState, o: nat)
    requires p.state != to && Progress(p.state, to) && (NeedsEvidence(to) ==> p.hasCommitmentEvidence)
    ensures Rewrites(p, Record(p, to, o), o)
  {}

  lemma ForceRewrites(p: PlacementPlan, o: nat)
    ensures Rewrites(p, Force(p, RevalidationRequired, o), o)
  {}

  lemma CommittedRewrites(p: PlacementPlan, claims: seq<ResourceClaim>, o: nat)
    requires p.state == AwaitingResourceCommit && claims == p.claims
    ensures Rewrites(p, Record(p, Committed, o).(hasCommitmentEvidence := true, claims := claims), o)
  {}

  lemma AdvanceRewrites(p: PlacementPlan, o: nat)
    requires NeedsEvidence(p.state) ==> p.hasCommitmentEvidence
    requires p.state != PlanReady && p.state != AwaitingResourceCommit && p.state != Committed
    requires IsLive(p.state) || IsDead(p.state)
    ensures Advance(p, Active, o).Ok? <==> IsLive(p.state)
    ensures Advance(p, Active, o).Ok? ==> Rewrites(p, Advance(p, Active, o).value, o)
  {}

  // --- sweeps ---------------------------------------------------------------------------------

  function Target(sw: Sweep): LifecycleState {
    match sw
    case Requeue => RevalidationRequired
    case Cancelling(_) => Cancelled
    case Superseding(_, _, _) => Superseded
  }

  lemma HitRewrites(sw: Sweep, p: PlacementPlan, o: nat)
    requires !IsTerminal(p.state)
    ensures Rewrites(p, Hit(sw, p, o), o) && Hit(sw, p, o).state == Target(sw)
  {}

  // A selected plan is forced into the target, every other plan is untouched.
  lemma SweptAt(sw: Sweep, plans: map<nat, PlacementPlan>, start: nat, id: nat)
    requires id in plans
    ensures id in Swept(sw, plans, start)
    ensures var p, q, o := plans[id], Swept(sw, plans, start)[id], OrdinalAt(sw, plans, id, start);
      if Selects(sw, p) then Rewrites(p, q, o) && q.state == Target(sw) else q == p
  {
    if Selects(sw, plans[id]) { HitRewrites(sw, plans[id], OrdinalAt(sw, plans, id, start)); }
  }

  // What a sweep needs of a plan it will not select.
  ghost predicate SparedAt(s: Sched, sw: Sweep, id: nat) {
    id in s.plans && !Selects(sw, s.plans[id]) ==> PlanStanding(s, s.plans[id])
  }

  ghost predicate Sweepable(s: Sched, sw: Sweep) {
    && (forall id {:trigger ShapeAt(s, id)} :: ShapeAt(s, id))
    && (forall id {:trigger SparedAt(s, sw, id)} :: SparedAt(s, sw, id))
    && HistoriesApart(s.plans) && LatestIndexes(s)
  }

  // A plan forced dead at an ordinal between the old and the new counter is in order.
  lemma HitPlan(s: Sched, t: Sched, sw: Sweep, id: nat, o: nat)
    requires id in s.plans && PlanShape(s, s.plans[id], id) && s.nextEventOrdinal <= o < t.nextEventOrdinal
    requires !IsTerminal(s.plans[id].state)
    requires t.nextPlanId == s.nextPlanId && t.latest == s.latest
    ensures PlanShape(t, Hit(sw, s.plans[id], o), id) && PlanStanding(t, Hit(sw, s.plans[id], o))
  {
    var p, q := s.plans[id], Hit(sw, s.plans[id], o);
    HitRewrites(sw, p, o);
    HistoryMovesOn(p, q, o, s.nextEventOrdinal, t.nextEventOrdinal);
    DeadPlan(s, t, p, q, id);
  }

  lemma HistoryMovesOn(p: PlacementPlan, q: PlacementPlan, o: nat, next: nat, later: nat)
    requires HistoryOk(p.stateHistory, p.state, next) && Rewrites(p, q, o) && next <= o < later
    ensures HistoryOk(q.stateHistory, q.state, later)
  {
    AppendKeepsHistory(p.stateHistory, p.state, HistoryEntry(q.state, o), next);
  }

  lemma DeadPlan(s: Sched, t: Sched, p: PlacementPlan, q: PlacementPlan, id: nat)
    requires PlanShape(s, p, id) && SameOrigin(p, q) && IsDead(q.state) && HistoryOk(q.stateHistory, q.state, t.nextEventOrdinal)
    requires t.nextPlanId == s.nextPlanId && t.latest == s.latest
    ensures PlanShape(t, q, id) && PlanStanding(t, q)
  {}

  lemma SparedPlan(s: Sched, t: Sched, id: nat)
    requires id in s.plans && PlanShape(s, s.plans[id], id) && PlanStanding(s, s.plans[id])
    requires t == s.(plans := t.plans, nextEventOrdinal := t.nextEventOrdinal) && s.nextEventOrdinal <= t.nextEventOrdinal
    ensures PlanShape(t, s.plans[id], id) && PlanStanding(t, s.plans[id])
  {}

  lemma SweptPlan(s: Sched, sw: Sweep, id: nat)
    requires id in s.plans && ShapeAt(s, id) && SparedAt(s, sw, id)
    ensures PlanAt(Sweeping(s, sw), id)
  {
    var t, o := Sweeping(s, sw), OrdinalAt(sw, s.plans, id, s.nextEventOrdinal);
    OrdinalsClimb(sw, s.plans, id, Bound(s.plans.Keys), s.nextEventOrdinal);
    if Selects(sw, s.plans[id]) {
      HitPlan(s, t, sw, id, o);
      assert t.plans[id] == Hit(sw, s.plans[id], o);
    } else {
      SparedPlan(s, t, id);
      assert t.plans[id] == s.plans[id];
    }
  }

  lemma SweptApart(s: Sched, sw: Sweep, a: nat, b: nat)
    requires Sweepable(s, sw) && a in s.plans && b in s.plans && a < b
    ensures ApartAt(Sweeping(s, sw).plans, a, b) && ApartAt(Sweeping(s, sw).plans, b, a)
  {
    var plans, start := s.plans, s.nextEventOrdinal;
    assert ShapeAt(s, a) && ShapeAt(s, b) && ApartAt(plans, a, b) && ApartAt(plans, b, a);
    SweptAt(sw, plans, start, a);
    SweptAt(sw, plans, start, b);
    OrdinalsClimb(sw, plans, a, b, start);
    AppendsApart(plans[a].stateHistory, plans[b].stateHistory, start,
                 HistoryEntry(Target(sw), OrdinalAt(sw, plans, a, start)), HistoryEntry(Target(sw), OrdinalAt(sw, plans, b, start)));
  }

  /** A sweep restores the plan clauses of the invariant, and every plan it selects ends dead. */
  lemma SweepRestores(s: Sched, sw: Sweep)
    requires Sweepable(s, sw)
    ensures var t := Sweeping(s, sw);
      && (forall id {:trigger PlanAt(t, id)} :: PlanAt(t, id)) && HistoriesApart(t.plans) && LatestIndexes(t)
      && Evolves(s.plans, t.plans) && OnlyKills(s.plans, t.plans)
  {
    var t := Sweeping(s, sw);
    forall id ensures PlanAt(t, id) {
      assert ShapeAt(s, id) && SparedAt(s, sw, id);
      if id in s.plans { SweptPlan(s, sw, id); }
    }
    forall a, b ensures ApartAt(t.plans, a, b) {
      if a in s.plans && b in s.plans {
        if a < b { SweptApart(s, sw, a, b); }
        if b < a { SweptApart(s, sw, b, a); }
      }
    }
    forall r ensures LatestAt(t, r) {
      assert LatestAt(s, r);
      if r in s.latest { SweptAt(sw, s.plans, s.nextEventOrdinal, s.latest[r]); }
    }
    forall id ensures EvolvedAt(s.plans, t.plans, id) {
      if id in s.plans { SweptAt(sw, s.plans, s.nextEventOrdinal, id); }
    }
    forall id ensures KilledAt(s.plans, t.plans, id) {
      if id in s.plans { SweptAt(sw, s.plans, s.nextEventOrdinal, id); }
    }
  }

  lemma SweptIsDead(s: Sched, sw: Sweep, id: nat)
    requires id in s.plans && (IsLive(s.plans[id].state) || IsDead(s.plans[id].state))
    requires sw.Requeue? || s.plans[id].requestId == sw.request
    ensures id in Sweeping(s, sw).plans && IsDead(Sweeping(s, sw).plans[id].state)
  {
    SweptAt(sw, s.plans, s.nextEventOrdinal, id);
  }

  /** u is s with its authority moved (every plan selected) or its cancellations extended. */
  lemma SweepKeeps(s: Sched, u: Sched, sw: Sweep)
    requires SchedOk(s) && u == s.(epoch := u.epoch, authority := u.authority, cancelled := u.cancelled) && u.epoch > 0
    requires sw.Requeue? || (u.epoch == s.epoch && u.authority == s.authority)
    requires u.cancelled == if sw.Cancelling? then s.cancelled + {sw.request} else s.cancelled
    ensures Keeps(s, Sweeping(u, sw)) && OnlyKills(s.plans, Sweeping(u, sw).plans)
  {
    forall id ensures ShapeAt(u, id) { assert PlanAt(s, id); }
    forall id ensures SparedAt(u, sw, id) { assert PlanAt(s, id); }
    forall r ensures LatestAt(u, r) { assert LatestAt(s, r); }
    SweepRestores(u, sw);
    RecordsKeep(s, Sweeping(u, sw));
  }

  // --- each block keeps the invariant ---------------------------------------------------------

  ghost predicate DeadIn(t: Sched, id: nat) {
    id in t.plans && IsDead(t.plans[id].state)
  }

  /** An epoch that moves forward kills every stored plan. */
  lemma SetEpochKeeps(s: Sched, e: nat)
    requires SchedOk(s) && SetEpoch(s, e).Ok?
    ensures var t := SetEpoch(s, e).value;
      && Keeps(s, t) && OnlyKills(s.plans, t.plans) && t.epoch == e >= s.epoch
      && (e != s.epoch ==> forall id :: id in s.plans ==> DeadIn(t, id))
  {
    if e != s.epoch {
      var u := s.(epoch := e, authority := s.authority + 1);
      SweepKeeps(s, u, Requeue);
      assert SetEpoch(s, e).value == Sweeping(u, Requeue);
      forall id | id in s.plans ensures DeadIn(Sweeping(u, Requeue), id) {
        assert PlanAt(s, id);
        SweptIsDead(u, Requeue, id);
      }
    } else {
      assert SetEpoch(s, e).value == s;
      forall id ensures EvolvedAt(s.plans, s.plans, id) && KilledAt(s.plans, s.plans, id) {}
    }
  }

  /** After a cancellation every plan of the request is dead. */
  lemma CancelKeeps(s: Sched, r: nat)
    requires SchedOk(s)
    ensures Keeps(s, Cancel(s, r)) && OnlyKills(s.plans, Cancel(s, r).plans)
    ensures forall id :: id in s.plans && s.plans[id].requestId == r ==> DeadIn(Cancel(s, r), id)
  {
    var u := s.(cancelled := s.cancelled + {r});
    SweepKeeps(s, u, Cancelling(r));
    forall id | id in s.plans && s.plans[id].requestId == r ensures DeadIn(Cancel(s, r), id) {
      assert PlanAt(s, id);
      SweptIsDead(u, Cancelling(r), id);
    }
  }

  /** After a supersession every plan of the old request is dead. */
  lemma SupersedeKeeps(s: Sched, o: nat, n: nat, reason: Text, entry: Text)
    requires SchedOk(s)
    ensures var t := Supersede(s, o, n, reason, entry);
      && Keeps(s, t) && OnlyKills(s.plans, t.plans)
      && forall id :: id in s.plans && s.plans[id].requestId == o ==> DeadIn(t, id)
  {
    var sw := Superseding(o, if n in s.latest then s.latest[n] else 0, reason);
    var m, t := Sweeping(s, sw), Supersede(s, o, n, reason, entry);
    SweepKeeps(s, s, sw);
    SameState(m, t);
    forall id | id in s.plans && s.plans[id].requestId == o ensures DeadIn(t, id) {
      assert PlanAt(s, id);
      SweptIsDead(s, sw, id);
    }
  }

  /** A supersession marks every plan of the old request that was not terminal with the new request's latest
      plan, or 0 when it has none, and with the reason; it touches no other plan. */
  lemma SupersedeRecords(s: Sched, o: nat, n: nat, reason: Text, entry: Text, id: nat)
    requires id in s.plans
    ensures id in Supersede(s, o, n, reason, entry).plans
    ensures var p, q := s.plans[id], Supersede(s, o, n, reason, entry).plans[id];
      if p.requestId == o && !IsTerminal(p.state) then
        q.state == Superseded && q.supersessionReason == reason
        && q.supersededBy == if n in s.latest then s.latest[n] else 0
      else q == p
  {
    SweptAt(Superseding(o, if n in s.latest then s.latest[n] else 0, reason), s.plans, s.nextEventOrdinal, id);
  }

  // The invariant does not mention the fences, the supersession log or the ingest counter.
  lemma SameState(s: Sched, t: Sched)
    requires SchedOk(s)
    requires t == s.(supersessionHistory := t.supersessionHistory, fencedWorkers := t.fencedWorkers,
                     fencedSources := t.fencedSources, ingestWatermark := t.ingestWatermark)
    ensures SchedOk(t)
  {
    RecordsKeep(s, t);
    forall id ensures PlanAt(t, id) { assert PlanAt(s, id); }
    forall r ensures LatestAt(t, r) { assert LatestAt(s, r); }
  }

  lemma IngestKeeps(s: Sched, c: Candidate)
    requires SchedOk(s) && Ingest(s, c).Ok?
    ensures var t := Ingest(s, c).value; SchedOk(t) && t.plans == s.plans && s.candidates.Keys <= t.candidates.Keys
  {
    var t := Ingest(s, c).value;
    forall id ensures PlanAt(t, id) { assert PlanAt(s, id); }
    forall r ensures LatestAt(t, r) { assert LatestAt(s, r); }
    forall r ensures RequestAt(t, r) { assert RequestAt(s, r); }
    forall k ensures CandidateAt(t, k) { assert CandidateAt(s, k); }
  }

  /** A diverging revalidation leaves the plan dead, whatever state it was in. */
  lemma RevalidateKeeps(s: Sched, id: nat, fp: GenerationFingerprint)
    requires SchedOk(s) && id in s.plans && s.plans[id].generations != fp
    ensures Revalidate(s, id, fp).Ok?
    ensures Keeps(s, Revalidate(s, id, fp).value.0) && DeadIn(Revalidate(s, id, fp).value.0, id)
    ensures OnlyKills(s.plans, Revalidate(s, id, fp).value.0.plans)
  {
    var q := Force(s.plans[id], RevalidationRequired, s.nextEventOrdinal);
    ForceRewrites(s.plans[id], s.nextEventOrdinal);
    RewriteKeeps(s, id, q);
    assert Revalidate(s, id, fp).value.0 == Replaced(s, id, q);
    forall k ensures KilledAt(s.plans, Replaced(s, id, q).plans, k) {}
  }

  lemma FirstHistoryOk(o: nat)
    ensures HistoryOk(FirstHistory(o), PlanReady, o + 4)
  {}

  lemma RequestStoreKeeps(s: Sched, r: SchedulingRequest)
    requires SchedOk(s) && DemandError(r.demand).None?
    ensures Keeps(s, s.(requests := s.requests[r.requestId := r]))
  {
    var t := s.(requests := s.requests[r.requestId := r]);
    forall id ensures PlanAt(t, id) { assert PlanAt(s, id); }
    forall q ensures LatestAt(t, q) { assert LatestAt(s, q); }
    forall q ensures RequestAt(t, q) { assert RequestAt(s, q); }
    forall c ensures CandidateAt(t, c) { assert CandidateAt(s, c); }
    forall id ensures EvolvedAt(s.plans, t.plans, id) {}
  }

  lemma NewPlanAt(s: Sched, r: SchedulingRequest, v: Verdict, id: nat)
    requires SchedOk(s) && v.ranked != []
    ensures PlanAt(Store(s, r, v), id)
  {
    var t := Store(s, r, v);
    assert PlanAt(s, id);
    FirstHistoryOk(s.nextEventOrdinal);
    if id == s.nextPlanId { assert t.plans[id] == NewPlan(s, r, v); }
  }

  /** A stored plan is live, stamped with the current epoch and authority, and filed under a fresh id. */
  lemma StoreKeeps(s: Sched, r: SchedulingRequest, v: Verdict)
    requires SchedOk(s) && DemandError(r.demand).None?
    ensures Keeps(s, Store(s, r, v)) && s.nextPlanId !in s.plans
  {
    assert PlanAt(s, s.nextPlanId);
    if v.ranked == [] {
      RequestStoreKeeps(s, r);
    } else {
      var t := Store(s, r, v);
      assert t.plans == s.plans[s.nextPlanId := NewPlan(s, r, v)] && t.latest == s.latest[r.requestId := s.nextPlanId];
      RecordsKeep(s, t);
      forall id ensures PlanAt(t, id) { NewPlanAt(s, r, v, id); }
      forall a, b ensures ApartAt(t.plans, a, b) {
        assert ApartAt(s.plans, a, b) && PlanAt(s, a) && PlanAt(s, b);
      }
      forall q ensures LatestAt(t, q) { assert LatestAt(s, q); }
      forall id ensures EvolvedAt(s.plans, t.plans, id) {}
    }
  }

  lemma BeginCommitKeeps(s: Sched, id: nat)
    requires SchedOk(s) && MayCommit(s, id)
    ensures Keeps(s, BeginCommit(s, id).0)
  {
    var q := Record(s.plans[id], AwaitingResourceCommit, s.nextEventOrdinal);
    RecordRewrites(s.plans[id], AwaitingResourceCommit, s.nextEventOrdinal);
    RewriteKeeps(s, id, q);
    assert BeginCommit(s, id).0 == Replaced(s, id, q);
  }

  lemma FinishCommitKeeps(s: Sched, id: nat, claims: seq<ResourceClaim>, a: BrokerAnswer)
    requires SchedOk(s) && id in s.plans && !Stale(s, id) && claims == s.plans[id].claims
    ensures Keeps(s, FinishCommit(s, id, claims, a).0)
  {
    var p, o := s.plans[id], s.nextEventOrdinal;
    var q := if a.succeeded then Record(p, Committed, o).(hasCommitmentEvidence := true, claims := claims)
             else Record(p, RevalidationRequired, o);
    CommittedRewrites(p, claims, o);
    RecordRewrites(p, RevalidationRequired, o);
    RewriteKeeps(s, id, q);
    assert FinishCommit(s, id, claims, a).0 == Replaced(s, id, q);
  }

  lemma BeginHandoffKeeps(s: Sched, id: nat)
    requires SchedOk(s) && MayHandOff(s, id)
    ensures Keeps(s, BeginHandoff(s, id).0)
  {
    var q := Record(s.plans[id], AwaitingExecution, s.nextEventOrdinal);
    assert PlanAt(s, id);
    RecordRewrites(s.plans[id], AwaitingExecution, s.nextEventOrdinal);
    RewriteKeeps(s, id, q);
    assert BeginHandoff(s, id).0 == Replaced(s, id, q);
  }

  lemma TickKeeps(s: Sched)
    requires SchedOk(s)
    ensures Keeps(s, s.(nextEventOrdinal := s.nextEventOrdinal + 1))
  {
    var t := s.(nextEventOrdinal := s.nextEventOrdinal + 1);
    RecordsKeep(s, t);
    forall id ensures PlanAt(t, id) { assert PlanAt(s, id); }
    forall r ensures LatestAt(t, r) { assert LatestAt(s, r); }
    forall id ensures EvolvedAt(s.plans, t.plans, id) {}
  }

  predicate PastCommitted(s: LifecycleState) {
    s != PlanReady && s != AwaitingResourceCommit && s != Committed
  }

  /** The second block of a handoff, on a plan past Committed whose request and authority still stand: an
      authorized answer launches a live plan and raises on a dead one. */
  lemma FinishHandoffKeeps(s: Sched, id: nat, h: ExecutionHandoff)
    requires SchedOk(s) && id in s.plans && PastCommitted(s.plans[id].state)
    requires s.plans[id].requestId !in s.cancelled && s.plans[id].authorityGeneration == s.authority
    ensures Keeps(s, FinishHandoff(s, id, h).0)
    ensures FinishHandoff(s, id, h).1.Ok? <==> !h.authorized || IsLive(s.plans[id].state)
    ensures !h.authorized ==> DeadIn(FinishHandoff(s, id, h).0, id)
  {
    assert PlanAt(s, id);
    AdvanceRewrites(s.plans[id], s.nextEventOrdinal);
    if !h.authorized { DenialKeeps(s, id, h); } else if IsLive(s.plans[id].state) { LaunchKeeps(s, id, h); } else { RaiseKeeps(s, id, h); }
  }

  lemma DenialKeeps(s: Sched, id: nat, h: ExecutionHandoff)
    requires SchedOk(s) && id in s.plans && !h.authorized
    requires s.plans[id].requestId !in s.cancelled && s.plans[id].authorityGeneration == s.authority
    ensures Keeps(s, FinishHandoff(s, id, h).0) && FinishHandoff(s, id, h).1.Ok? && DeadIn(FinishHandoff(s, id, h).0, id)
  {
    var q := Force(s.plans[id], RevalidationRequired, s.nextEventOrdinal);
    ForceRewrites(s.plans[id], s.nextEventOrdinal);
    RewriteKeeps(s, id, q);
    assert FinishHandoff(s, id, h).0 == Replaced(s, id, q);
  }

  lemma LaunchKeeps(s: Sched, id: nat, h: ExecutionHandoff)
    requires SchedOk(s) && id in s.plans && h.authorized && Advance(s.plans[id], Active, s.nextEventOrdinal).Ok?
    requires s.plans[id].requestId !in s.cancelled && s.plans[id].authorityGeneration == s.authority
    requires Rewrites(s.plans[id], Advance(s.plans[id], Active, s.nextEventOrdinal).value, s.nextEventOrdinal)
    ensures Keeps(s, FinishHandoff(s, id, h).0) && FinishHandoff(s, id, h).1.Ok?
  {
    var q := Advance(s.plans[id], Active, s.nextEventOrdinal).value;
    RewriteKeeps(s, id, q);
    assert FinishHandoff(s, id, h).0 == Replaced(s, id, q);
  }

  lemma RaiseKeeps(s: Sched, id: nat, h: ExecutionHandoff)
    requires SchedOk(s) && id in s.plans && h.authorized && Advance(s.plans[id], Active, s.nextEventOrdinal).Err?
    requires s.plans[id].requestId !in s.cancelled && s.plans[id].authorityGeneration == s.authority
    ensures Keeps(s, FinishHandoff(s, id, h).0) && FinishHandoff(s, id, h).1.Err?
  {
    TickKeeps(s);
    assert FinishHandoff(s, id, h).0 == s.(nextEventOrdinal := s.nextEventOrdinal + 1);
  }
}
