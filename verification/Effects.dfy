/** What each block leaves behind: which plans it moves, where to, with how many event ordinals, and that it
    touches nothing else. */
module Effects {
  import opened Types
  import opened Lifecycle
  import opened OrderedKeys
  import opened SchedulerModel
  import opened Invariants

  // --- one plan -------------------------------------------------------------------------------

  /** q is p moved to a state: recorded at an ordinal from lo up to hi while there is room and if it is a change; and
      nothing else of it changes. */
  predicate MovedTo(p: PlacementPlan, q: PlacementPlan, to: LifecycleState, lo: nat, hi: nat) {
    && q == p.(state := to, stateHistory := q.stateHistory)
    && (if p.state == to || |p.stateHistory| >= 64 then q.stateHistory == p.stateHistory
        else |q.stateHistory| == |p.stateHistory| + 1 && q.stateHistory[..|p.stateHistory|] == p.stateHistory
             && q.stateHistory[|p.stateHistory|].state == to && lo <= q.stateHistory[|p.stateHistory|].ordinal < hi)
  }

  // Not one of the four final states.
  predicate Unfinished(p: PlacementPlan) {
    p.state != Superseded && p.state != Cancelled && p.state != Failed && p.state != Retired
  }

  ghost function AllUnfinished(plans: map<nat, PlacementPlan>): set<nat> {
    set id | id in plans && Unfinished(plans[id])
  }

  ghost function UnfinishedOf(plans: map<nat, PlacementPlan>, request: nat): set<nat> {
    set id | id in plans && plans[id].requestId == request && Unfinished(plans[id])
  }

  // --- the loops over the plans ---------------------------------------------------------------

  ghost function Hits(sw: Sweep, plans: map<nat, PlacementPlan>, n: nat): set<nat> {
    set id | id in plans && id < n && Selects(sw, plans[id])
  }

  lemma {:induction false} OrdinalsDrawn(sw: Sweep, plans: map<nat, PlacementPlan>, n: nat, start: nat)
    ensures OrdinalAt(sw, plans, n, start) == start + |Hits(sw, plans, n)|
  {
    if n == 0 {
      assert Hits(sw, plans, 0) == {};
    } else {
      OrdinalsDrawn(sw, plans, n - 1, start);
      HitsNext(sw, plans, n - 1);
    }
  }

  lemma HitsNext(sw: Sweep, plans: map<nat, PlacementPlan>, n: nat)
    ensures |Hits(sw, plans, n + 1)| == |Hits(sw, plans, n)| + if n in plans && Selects(sw, plans[n]) then 1 else 0
  {
    var some, more := Hits(sw, plans, n), Hits(sw, plans, n + 1);
    forall k ensures k in more <==> k in some || (k == n && n in plans && Selects(sw, plans[n])) {}
    OneMore(some, more, n);
  }

  lemma OneMore(some: set<nat>, more: set<nat>, n: nat)
    requires n !in some && forall k :: k in more <==> k in some || (k == n && n in more)
    ensures |more| == |some| + if n in more then 1 else 0
  {
    assert more == if n in more then some + {n} else some;
  }

  lemma SweepDraws(s: Sched, sw: Sweep)
    ensures Sweeping(s, sw).nextEventOrdinal
      == s.nextEventOrdinal + |if sw.Requeue? then AllUnfinished(s.plans) else UnfinishedOf(s.plans, sw.request)|
  {
    var n := Bound(s.plans.Keys);
    OrdinalsDrawn(sw, s.plans, n, s.nextEventOrdinal);
    assert Hits(sw, s.plans, n) == if sw.Requeue? then AllUnfinished(s.plans) else UnfinishedOf(s.plans, sw.request);
  }

  lemma SweepPlaces(s: Sched, sw: Sweep, id: nat)
    requires id in s.plans && Selects(sw, s.plans[id])
    ensures var o := OrdinalAt(sw, s.plans, id, s.nextEventOrdinal);
      && Sweeping(s, sw).plans.Keys == s.plans.Keys && s.nextEventOrdinal <= o < Sweeping(s, sw).nextEventOrdinal
      && Sweeping(s, sw).plans[id] == Hit(sw, s.plans[id], o)
  {
    OrdinalsClimb(sw, s.plans, id, Bound(s.plans.Keys), s.nextEventOrdinal);
  }

  // The plan with the marks that the sweep leaves on it.
  function Marked(sw: Sweep, p: PlacementPlan): PlacementPlan {
    if sw.Superseding? then p.(supersededBy := sw.successor, supersessionReason := sw.reason) else p
  }

  lemma HitMoves(sw: Sweep, p: PlacementPlan, o: nat, lo: nat, hi: nat)
    requires lo <= o < hi
    ensures MovedTo(Marked(sw, p), Hit(sw, p, o), Target(sw), lo, hi)
  {}

  lemma SweepMoves(s: Sched, sw: Sweep, id: nat)
    requires id in s.plans
    ensures id in Sweeping(s, sw).plans
    ensures var p, t := s.plans[id], Sweeping(s, sw);
      if Unfinished(p) && (sw.Requeue? || p.requestId == sw.request) then
        MovedTo(Marked(sw, p), t.plans[id], Target(sw), s.nextEventOrdinal, t.nextEventOrdinal)
      else t.plans[id] == p
  {
    if Selects(sw, s.plans[id]) {
      SweepPlaces(s, sw, id);
      HitMoves(sw, s.plans[id], OrdinalAt(sw, s.plans, id, s.nextEventOrdinal), s.nextEventOrdinal, Sweeping(s, sw).nextEventOrdinal);
    }
  }

  // --- a fresh scheduler ----------------------------------------------------------------------

  /** A fresh scheduler is in epoch 1 with the configured authority; ids and ordinals start at 1, and everything else
      is empty. */
  lemma FreshIs(config: SchedulerModel.Config, authority: nat)
    ensures var s := Fresh(config, authority);
      && s.epoch == 1 && s.authority == authority && s.config == config && s.nextPlanId == 1 && s.nextSubmitOrdinal == 1
      && s.nextEventOrdinal == 1 && s.ingestWatermark == 0 && |s.candidates| == |s.requests| == |s.plans| == |s.latest| == 0
      && |s.supersessionHistory| == |s.cancelled| == |s.fencedWorkers| == |s.fencedSources| == 0
  {}

  // --- epoch ----------------------------------------------------------------------------------

  /** An epoch below the present one is refused as stale and the present one changes nothing. */
  lemma EpochAnswers(s: Sched, e: nat)
    ensures SetEpoch(s, e) == Err(StaleAuthority) <==> e < s.epoch
    ensures e == s.epoch ==> SetEpoch(s, e) == Ok(s)
  {}

  /** A larger one is taken, with the next authority; every unfinished plan is requeued, at one ordinal each, and
      nothing else changes. */
  lemma EpochMoves(s: Sched, e: nat, id: nat)
    requires e > s.epoch
    ensures SetEpoch(s, e).Ok?
    ensures var t := SetEpoch(s, e).value;
      && t == s.(epoch := e, authority := s.authority + 1, plans := t.plans, nextEventOrdinal := t.nextEventOrdinal)
      && t.plans.Keys == s.plans.Keys
      && t.nextEventOrdinal == s.nextEventOrdinal + |AllUnfinished(s.plans)|
      && (id in s.plans ==>
            if Unfinished(s.plans[id]) then
              MovedTo(s.plans[id], t.plans[id], RevalidationRequired, s.nextEventOrdinal, t.nextEventOrdinal)
            else t.plans[id] == s.plans[id])
  {
    var u := s.(epoch := e, authority := s.authority + 1);
    SweepDraws(u, Requeue);
    if id in s.plans { SweepMoves(u, Requeue, id); }
  }

  // --- cancel and supersede -------------------------------------------------------------------

  /** Cancelling marks the request and cancels its unfinished plans, at one ordinal each; nothing else changes. */
  lemma CancelMoves(s: Sched, r: nat, id: nat)
    ensures var t := Cancel(s, r);
      && t == s.(cancelled := s.cancelled + {r}, plans := t.plans, nextEventOrdinal := t.nextEventOrdinal)
      && t.plans.Keys == s.plans.Keys
      && t.nextEventOrdinal == s.nextEventOrdinal + |UnfinishedOf(s.plans, r)|
      && (id in s.plans ==>
            if s.plans[id].requestId == r && Unfinished(s.plans[id]) then
              MovedTo(s.plans[id], t.plans[id], Cancelled, s.nextEventOrdinal, t.nextEventOrdinal)
            else t.plans[id] == s.plans[id])
  {
    var u := s.(cancelled := s.cancelled + {r});
    SweepDraws(u, Cancelling(r));
    if id in s.plans { SweepMoves(u, Cancelling(r), id); }
  }

  /** Superseding marks the old request's unfinished plans with the reason and the new request's latest plan, 0 when
      it has none, and supersedes them; it logs one line, and nothing else changes. */
  lemma SupersedeMoves(s: Sched, o: nat, n: nat, reason: Text, entry: Text, id: nat)
    ensures var t := Supersede(s, o, n, reason, entry);
      && t == s.(supersessionHistory := s.supersessionHistory + [entry], plans := t.plans, nextEventOrdinal := t.nextEventOrdinal)
      && t.plans.Keys == s.plans.Keys
      && t.nextEventOrdinal == s.nextEventOrdinal + |UnfinishedOf(s.plans, o)|
      && (id in s.plans ==>
            if s.plans[id].requestId == o && Unfinished(s.plans[id]) then
              MovedTo(s.plans[id].(supersededBy := if n in s.latest then s.latest[n] else 0, supersessionReason := reason),
                      t.plans[id], Superseded, s.nextEventOrdinal, t.nextEventOrdinal)
            else t.plans[id] == s.plans[id])
  {
    var sw := Superseding(o, if n in s.latest then s.latest[n] else 0, reason);
    SweepDraws(s, sw);
    if id in s.plans { SweepMoves(s, sw, id); }
  }

  // --- revalidate -----------------------------------------------------------------------------

  /** Revalidation fails for an unknown plan, leaves everything alone when the fingerprint is the plan's own, and
      otherwise requeues that plan, whatever its state, at one ordinal. */
  lemma RevalidateMoves(s: Sched, id: nat, fp: GenerationFingerprint)
    ensures Revalidate(s, id, fp) == Err(UnknownState) <==> id !in s.plans
    ensures id in s.plans && fp == s.plans[id].generations ==> Revalidate(s, id, fp) == Ok((s, true))
    ensures id in s.plans && fp != s.plans[id].generations ==>
      var r := Revalidate(s, id, fp);
      && r.Ok? && !r.value.1 && id in r.value.0.plans
      && MovedTo(s.plans[id], r.value.0.plans[id], RevalidationRequired, s.nextEventOrdinal, s.nextEventOrdinal + 1)
      && r.value.0 == s.(plans := s.plans[id := r.value.0.plans[id]], nextEventOrdinal := s.nextEventOrdinal + 1)
  {}

  // --- evidence -------------------------------------------------------------------------------

  predicate WellFormed(c: Candidate) {
    && c.candidateId > 0 && c.candidateGeneration > 0 && c.sourceBootId > 0 && c.workerBootId > 0
    && (|c.bindings| > 0 || c.capacity.vramTotal > 0)
  }

  /** Evidence is stored, replacing what was there and counted once, if it is well formed, from no fenced boot, and
      newer; a fenced boot is told it is stale, everything else that the argument is invalid. */
  lemma IngestAnswers(s: Sched, c: Candidate)
    ensures var fenced, r := c.workerBootId in s.fencedWorkers || c.sourceBootId in s.fencedSources, Ingest(s, c);
      var newer := c.candidateId in s.candidates ==> c.candidateGeneration > s.candidates[c.candidateId].candidateGeneration;
      && (r.Ok? <==> WellFormed(c) && !fenced && newer)
      && (r == Err(StaleAuthority) <==> WellFormed(c) && fenced)
      && (r.Err? ==> r.error == StaleAuthority || r.error == InvalidArgument)
      && (r.Ok? ==> r.value == s.(candidates := s.candidates[c.candidateId := c], ingestWatermark := s.ingestWatermark + 1))
  {}

  // --- store ----------------------------------------------------------------------------------

  /** With a survivor, a schedule call files one plan under the next id, ready by four recorded transitions, stamped
      with the present epoch and authority and unmarked, and makes it its request's latest; without one, it keeps the
      request.  Nothing else changes. */
  lemma StoreMoves(s: Sched, r: SchedulingRequest, v: Verdict)
    ensures v.ranked == [] ==> Store(s, r, v) == s.(requests := s.requests[r.requestId := r])
    ensures v.ranked != [] ==>
      var t, id := Store(s, r, v), s.nextPlanId;
      && id in t.plans
      && t == s.(plans := s.plans[id := t.plans[id]], latest := s.latest[r.requestId := id], nextPlanId := id + 1,
                 nextEventOrdinal := s.nextEventOrdinal + 4)
      && FreshPlan(t.plans[id], id, s.nextEventOrdinal) && t.plans[id].coordinatorEpoch == s.epoch
      && t.plans[id].authorityGeneration == s.authority && t.plans[id].requestId == r.requestId
  {}

  predicate FreshPlan(p: PlacementPlan, id: nat, o: nat) {
    && p.planId == id && p.state == PlanReady && p.supersededBy == 0 && p.supersessionReason == [] && !p.hasCommitmentEvidence
    && |p.stateHistory| == 4 && p.stateHistory[0] == HistoryEntry(Discovering, o)
    && p.stateHistory[1] == HistoryEntry(FilteringState, o + 1) && p.stateHistory[2] == HistoryEntry(RankingState, o + 2)
    && p.stateHistory[3] == HistoryEntry(PlanReady, o + 3)
  }

  // --- commit and handoff ---------------------------------------------------------------------

  // The plan is in the state asked for, its request not cancelled and its authority the present one.
  predicate Ready(s: Sched, id: nat, state: LifecycleState) {
    && id in s.plans && s.plans[id].state == state && s.plans[id].requestId !in s.cancelled
    && s.plans[id].authorityGeneration == s.authority
  }

  predicate OnlyMoves(s: Sched, t: Sched, id: nat, to: LifecycleState) {
    && id in s.plans && id in t.plans
    && MovedTo(s.plans[id], t.plans[id], to, s.nextEventOrdinal, s.nextEventOrdinal + 1)
    && t == s.(plans := s.plans[id := t.plans[id]], nextEventOrdinal := s.nextEventOrdinal + 1)
  }

  /** A commit asks the broker, for the plan's own claims, exactly when the plan is ready, its request stands and its
      authority is the present one; the plan then waits. */
  lemma CommitBeginsIff(s: Sched, id: nat)
    ensures var (t, claims) := BeginCommit(s, id);
      if Ready(s, id, PlanReady) then claims == Some(s.plans[id].claims) && OnlyMoves(s, t, id, AwaitingResourceCommit)
      else claims == None && t == s
  {}

  /** Its second block commits a plan that still waits when the broker granted, and then records the evidence; requeues
      it when the broker refused; and leaves everything alone when the plan no longer waits or its standing is gone. */
  lemma CommitFinishes(s: Sched, id: nat, a: BrokerAnswer)
    requires id in s.plans
    ensures var t := FinishCommit(s, id, s.plans[id].claims, a).0;
      if !Ready(s, id, AwaitingResourceCommit) then t == s
      else if !a.succeeded then OnlyMoves(s, t, id, RevalidationRequired)
      else
        && id in t.plans && t == s.(plans := s.plans[id := t.plans[id]], nextEventOrdinal := s.nextEventOrdinal + 1)
        && MovedTo(s.plans[id].(hasCommitmentEvidence := true), t.plans[id], Committed, s.nextEventOrdinal, s.nextEventOrdinal + 1)
  {}

  /** A handoff shows the executor the plan exactly when it is committed and its request and authority stand. */
  lemma HandoffBeginsIff(s: Sched, id: nat)
    ensures var (t, plan) := BeginHandoff(s, id);
      if Ready(s, id, Committed) then plan == Some(s.plans[id]) && OnlyMoves(s, t, id, AwaitingExecution)
      else plan == None && t == s
  {}

  // The plan's request and authority stand.
  predicate Standing(s: Sched, id: nat)
    requires id in s.plans
  {
    s.plans[id].requestId !in s.cancelled && s.plans[id].authorityGeneration == s.authority
  }

  /** Its second block makes a plan that awaits execution active when it was authorized, requeues any plan when it was
      not, and leaves everything alone when the request or the authority is gone. */
  lemma HandoffFinishes(s: Sched, id: nat, h: ExecutionHandoff)
    requires id in s.plans
    ensures var t := FinishHandoff(s, id, h).0;
      && (!Standing(s, id) ==> t == s)
      && (Standing(s, id) && !h.authorized ==> OnlyMoves(s, t, id, RevalidationRequired))
      && (Standing(s, id) && h.authorized && s.plans[id].state == AwaitingExecution ==> OnlyMoves(s, t, id, Active))
      && (Standing(s, id) && h.authorized && IsDead(s.plans[id].state) ==> t == s.(nextEventOrdinal := s.nextEventOrdinal + 1))
  {
    HandoffDenied(s, id, h);
    if h.authorized && Standing(s, id) { HandoffGranted(s, id, h); }
  }

  lemma HandoffDenied(s: Sched, id: nat, h: ExecutionHandoff)
    requires id in s.plans
    ensures var t := FinishHandoff(s, id, h).0;
      (!Standing(s, id) ==> t == s) && (Standing(s, id) && !h.authorized ==> OnlyMoves(s, t, id, RevalidationRequired))
  {}

  lemma HandoffGranted(s: Sched, id: nat, h: ExecutionHandoff)
    requires id in s.plans && h.authorized && Standing(s, id)
    ensures var t := FinishHandoff(s, id, h).0;
      && (s.plans[id].state == AwaitingExecution ==> OnlyMoves(s, t, id, Active))
      && (IsDead(s.plans[id].state) ==> t == s.(nextEventOrdinal := s.nextEventOrdinal + 1))
  {}

  // --- the transition table -------------------------------------------------------------------

  // Where a state may go, itself apart.
  function Targets(from: LifecycleState): set<LifecycleState> {
    match from
    case Requested => {Discovering, Cancelled, Superseded, Failed}
    case Discovering => {FilteringState, RevalidationRequired, Cancelled, Superseded, Failed}
    case FilteringState => {RankingState, RevalidationRequired, Cancelled, Superseded, Failed}
    case RankingState => {PlanReady, RevalidationRequired, Cancelled, Superseded, Failed}
    case PlanReady => {AwaitingResourceCommit, RevalidationRequired, Cancelled, Superseded, Failed}
    case AwaitingResourceCommit => {Committed, RevalidationRequired, Cancelled, Superseded, Failed}
    case Committed => {AwaitingExecution, RevalidationRequired, Cancelled, Superseded, Failed}
    case AwaitingExecution => {Active, RevalidationRequired, Cancelled, Superseded, Failed}
    case Active => {RevalidationRequired, Cancelled, Superseded, Failed, Retired}
    case RevalidationRequired =>
      {PlanReady, FilteringState, RankingState, AwaitingResourceCommit, Cancelled, Superseded, Failed, Retired}
    case Superseded => {Retired}
    case Cancelled => {Retired}
    case Failed => {Retired}
    case Retired => {}
  }

  /** The transition table, row by row. */
  lemma TableIs(from: LifecycleState, to: LifecycleState)
    ensures CanTransition(from, to) <==> from == to || to in Targets(from)
  {}
}
