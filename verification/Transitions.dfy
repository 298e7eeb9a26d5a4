/**
  The transition table against what the scheduler does.  Two blocks force a state without looking at the
  table; here is exactly when they leave it, and what holds of every history while they do not.
*/
module Transitions {
  import opened Types
  import opened Lifecycle
  import opened SchedulerModel
  import opened Snapshots
  import opened Invariants
  import opened System
  import opened SystemInvariant
  import opened Runs

  /** The two blocks that force RevalidationRequired with no test of the plan's state: a diverging revalidation
      of the plan, and the second block of its denied handoff while its request and authority still stand. */
  predicate Forces(y: Sys, step: Step, id: nat) {
    id in y.sched.plans &&
    match step
    case DoRevalidate(p, fp) => p == id && y.sched.plans[id].generations != fp
    case HandoffFinishes(c) =>
      && c in y.calls && y.calls[c].HandoffAnswered? && y.calls[c].plan == id
      && !y.calls[c].handoff.authorized && Undisturbed(y.sched, id)
    case _ => false
  }

  // --- a terminal plan ------------------------------------------------------------------------

  ghost predicate Frozen(s: Sched, t: Sched, id: nat) {
    id in s.plans && IsTerminal(s.plans[id].state) ==> id in t.plans && t.plans[id] == s.plans[id]
  }

  lemma SweepFreezes(s: Sched, sw: Sweep, id: nat)
    ensures Frozen(s, Sweeping(s, sw), id)
  {
    if id in s.plans { SweptAt(sw, s.plans, s.nextEventOrdinal, id); }
  }

  lemma SetEpochFreezes(s: Sched, e: nat, id: nat)
    ensures SetEpoch(s, e).Ok? ==> Frozen(s, SetEpoch(s, e).value, id)
  {
    SweepFreezes(s.(epoch := e, authority := s.authority + 1), Requeue, id);
  }

  lemma SupersedeFreezes(s: Sched, o: nat, n: nat, reason: Text, entry: Text, id: nat)
    ensures Frozen(s, Supersede(s, o, n, reason, entry), id)
  {
    SweepFreezes(s, Superseding(o, if n in s.latest then s.latest[n] else 0, reason), id);
  }

  lemma StoreFreezes(s: Sched, r: SchedulingRequest, v: Verdict, id: nat)
    requires SchedOk(s)
    ensures Frozen(s, Store(s, r, v), id)
  {
    assert PlanAt(s, s.nextPlanId);
  }

  lemma CommitFreezes(y: Sys, c: nat, id: nat)
    requires Inv(y) && c in y.calls && y.calls[c].CommitAnswered?
    ensures Frozen(y.sched, CommitReturned(y, c).sched, id)
  {
    StaleIsStateTest(y, c);
  }

  lemma HandoffFreezes(y: Sys, c: nat, id: nat)
    requires Inv(y) && c in y.calls && y.calls[c].HandoffAnswered? && !Forces(y, HandoffFinishes(c), id)
    ensures Frozen(y.sched, HandoffReturned(y, c).sched, id)
  {
    assert CallAt(y, c);
  }

  lemma DirectFreezes(y: Sys, step: Step, id: nat)
    requires Enabled(y, step) && IsDirect(step) && !step.DoRestore? && !Forces(y, step, id)
    ensures Frozen(y.sched, Apply(y, step).sched, id)
  {
    match step
    case DoSetEpoch(e) => SetEpochFreezes(y.sched, e, id);
    case DoCancel(r) => SweepFreezes(y.sched.(cancelled := y.sched.cancelled + {r}), Cancelling(r), id);
    case DoSupersede(o, n, reason, entry) => SupersedeFreezes(y.sched, o, n, reason, entry, id);
    case DoRevalidate(p, fp) =>
    case _ =>
  }

  lemma BeginFreezes(s: Sched, p: nat, id: nat)
    ensures MayCommit(s, p) ==> Frozen(s, BeginCommit(s, p).0, id)
    ensures MayHandOff(s, p) ==> Frozen(s, BeginHandoff(s, p).0, id)
  {}

  lemma ExternalFreezes(y: Sys, step: Step, id: nat)
    requires Inv(y) && Enabled(y, step) && IsExternal(step) && !Forces(y, step, id)
    ensures Frozen(y.sched, Apply(y, step).sched, id)
  {
    match step
    case CommitBegins(p) => BeginFreezes(y.sched, p, id);
    case HandoffBegins(p) => BeginFreezes(y.sched, p, id);
    case CommitFinishes(c) => CommitFreezes(y, c, id);
    case HandoffFinishes(c) => HandoffFreezes(y, c, id);
    case _ =>
  }

  lemma OtherFreezes(y: Sys, step: Step, id: nat)
    requires Inv(y) && Enabled(y, step) && !IsDirect(step) && !IsExternal(step)
    ensures Frozen(y.sched, Apply(y, step).sched, id)
  {
    match step
    case ScheduleStores(c, ranked, fs, dependency) =>
      StoreFreezes(y.sched, y.calls[c].request, VerdictOf(y.calls[c], ranked, fs, dependency), id);
    case FenceBumps(c) => SetEpochFreezes(y.sched, y.calls[c].seen + 1, id);
    case _ =>
  }

  lemma StepFreezes(y: Sys, step: Step, id: nat)
    requires Inv(y) && Enabled(y, step) && !step.DoRestore? && !Forces(y, step, id)
    ensures Frozen(y.sched, Apply(y, step).sched, id)
  {
    if IsDirect(step) { DirectFreezes(y, step, id); }
    else if IsExternal(step) { ExternalFreezes(y, step, id); }
    else { OtherFreezes(y, step, id); }
  }

  lemma ForcedRequeues(y: Sys, step: Step, id: nat)
    requires Inv(y) && Enabled(y, step) && Forces(y, step, id)
    ensures id in Apply(y, step).sched.plans && Apply(y, step).sched.plans[id].state == RevalidationRequired
  {}

  /** A terminal plan's record survives a step untouched, unless the step is one of the two that force it; then
      the plan is reopened as RevalidationRequired. */
  lemma TerminalFrozenIff(y: Sys, step: Step, id: nat)
    requires Inv(y) && Enabled(y, step) && !step.DoRestore?
    requires id in y.sched.plans && IsTerminal(y.sched.plans[id].state)
    ensures id in Apply(y, step).sched.plans
    ensures Apply(y, step).sched.plans[id] == y.sched.plans[id] <==> !Forces(y, step, id)
    ensures Forces(y, step, id) ==> Apply(y, step).sched.plans[id].state == RevalidationRequired
  {
    if Forces(y, step, id) { ForcedRequeues(y, step, id); } else { StepFreezes(y, step, id); }
  }

  lemma ProgressIsLegal(from: LifecycleState, to: LifecycleState)
    requires Progress(from, to) && (IsLive(from) || IsDead(from))
    ensures CanTransition(from, to) <==> !(IsTerminal(from) && to == RevalidationRequired)
  {}

  /** Every change a step makes to a stored plan is one the table lists, except exactly when a terminal plan is
      forced. */
  lemma StepIsLegalIff(y: Sys, step: Step, id: nat)
    requires Inv(y) && Enabled(y, step) && !step.DoRestore? && id in y.sched.plans
    ensures id in Apply(y, step).sched.plans
    ensures CanTransition(y.sched.plans[id].state, Apply(y, step).sched.plans[id].state)
      <==> !(IsTerminal(y.sched.plans[id].state) && Forces(y, step, id))
  {
    StepKeeps(y, step);
    assert PlanAt(y.sched, id) && EvolvedAt(y.sched.plans, Apply(y, step).sched.plans, id);
    ProgressIsLegal(y.sched.plans[id].state, Apply(y, step).sched.plans[id].state);
    if IsTerminal(y.sched.plans[id].state) { TerminalFrozenIff(y, step, id); }
  }

  /** A cancelled plan is not safe in its terminal state: a diverging revalidation reopens it, against the
      table. */
  lemma CancelThenRevalidate(s: Sched, id: nat, fp: GenerationFingerprint)
    requires SchedOk(s) && id in s.plans && !IsTerminal(s.plans[id].state) && s.plans[id].generations != fp
    ensures var t := Cancel(s, s.plans[id].requestId);
      && id in t.plans && t.plans[id].state == Cancelled && Revalidate(t, id, fp).Ok?
      && id in Revalidate(t, id, fp).value.0.plans
      && !CanTransition(t.plans[id].state, Revalidate(t, id, fp).value.0.plans[id].state)
  {
    CancelsPlan(s, id);
    RevalidationForces(Cancel(s, s.plans[id].requestId), id, fp);
  }

  lemma CancelsPlan(s: Sched, id: nat)
    requires id in s.plans && !IsTerminal(s.plans[id].state)
    ensures var t := Cancel(s, s.plans[id].requestId);
      id in t.plans && t.plans[id].state == Cancelled && t.plans[id].generations == s.plans[id].generations
  {
    SweptAt(Cancelling(s.plans[id].requestId), s.plans, s.nextEventOrdinal, id);
  }

  lemma RevalidationForces(t: Sched, id: nat, fp: GenerationFingerprint)
    requires id in t.plans && t.plans[id].generations != fp
    ensures Revalidate(t, id, fp).Ok? && id in Revalidate(t, id, fp).value.0.plans
    ensures Revalidate(t, id, fp).value.0.plans[id].state == RevalidationRequired
  {}

  // --- histories as paths of the table --------------------------------------------------------

  ghost predicate Rises(h: seq<HistoryEntry>) {
    forall i :: 0 <= i < |h| - 1 ==>
      Position(h[i].state) < Position(h[i + 1].state) && CanTransition(h[i].state, h[i + 1].state)
  }

  /** The history is a complete path of the table, climbing from Discovering to the current state; nothing fails or
      retires a plan. */
  ghost predicate Climbs(p: PlacementPlan) {
    var h := p.stateHistory;
    && 0 < |h| <= Position(p.state) && h[0].state == Discovering && h[|h| - 1].state == p.state
    && p.state != Failed && p.state != Retired && Rises(h)
  }

  ghost predicate ClimbsAt(s: Sched, id: nat) {
    id in s.plans ==> Climbs(s.plans[id])
  }

  lemma ClimbStep(p: PlacementPlan, q: PlacementPlan)
    requires Climbs(p) && Traced(p, q) && Progress(p.state, q.state) && (IsLive(p.state) || IsDead(p.state))
    requires !(IsTerminal(p.state) && q.state == RevalidationRequired)
    ensures Climbs(q)
  {
    if q.state != p.state {
      ProgressClimbs(p.state, q.state);
      assert |p.stateHistory| < MAX_HISTORY;
      RiseExtends(p.stateHistory, q.stateHistory);
    }
  }

  lemma ProgressClimbs(from: LifecycleState, to: LifecycleState)
    requires Progress(from, to) && from != to && (IsLive(from) || IsDead(from)) && from != Failed && from != Retired
    requires !(IsTerminal(from) && to == RevalidationRequired)
    ensures CanTransition(from, to) && Position(from) < Position(to) && to != Failed && to != Retired && Position(from) <= 10
  {}

  lemma RiseExtends(h: seq<HistoryEntry>, k: seq<HistoryEntry>)
    requires h != [] && Rises(h) && |k| == |h| + 1 && k[..|h|] == h
    requires Position(h[|h| - 1].state) < Position(k[|h|].state) && CanTransition(h[|h| - 1].state, k[|h|].state)
    ensures Rises(k)
  {
    assert forall i :: 0 <= i < |h| ==> k[i] == k[..|h|][i];
  }

  lemma StoredClimbs(s: Sched, r: SchedulingRequest, v: Verdict, id: nat)
    requires ClimbsAt(s, id)
    ensures ClimbsAt(Store(s, r, v), id)
  {
    if v.ranked != [] && id == s.nextPlanId { assert Store(s, r, v).plans[id] == NewPlan(s, r, v); }
  }

  lemma StepClimbs(y: Sys, step: Step, id: nat)
    requires Inv(y) && Enabled(y, step) && !step.DoRestore? && ClimbsAt(y.sched, id)
    requires id in y.sched.plans && IsTerminal(y.sched.plans[id].state) ==> !Forces(y, step, id)
    ensures ClimbsAt(Apply(y, step).sched, id)
  {
    if step.ScheduleStores? {
      StoredClimbs(y.sched, y.calls[step.call].request,
                   VerdictOf(y.calls[step.call], step.ranked, step.factors, step.dependency), id);
    } else if id in y.sched.plans {
      StepIsLegalIff(y, step, id);
      StepKeeps(y, step);
      EvolvedClimbs(y.sched, Apply(y, step).sched, id);
    } else {
      StepFrame(y, step);
    }
  }

  lemma EvolvedClimbs(s: Sched, t: Sched, id: nat)
    requires SchedOk(s) && Evolves(s.plans, t.plans) && id in s.plans && id in t.plans && Climbs(s.plans[id])
    requires CanTransition(s.plans[id].state, t.plans[id].state)
    ensures ClimbsAt(t, id)
  {
    assert PlanAt(s, id) && EvolvedAt(s.plans, t.plans, id);
    ClimbStep(s.plans[id], t.plans[id]);
  }

  /** No step of the run forces plan id while it is terminal. */
  ghost predicate NeverReopened(ys: seq<Sys>, steps: seq<Step>, id: nat)
    requires |ys| == |steps| + 1
  {
    forall k :: 0 <= k < |steps| ==>
      !(id in ys[k].sched.plans && IsTerminal(ys[k].sched.plans[id].state) && Forces(ys[k], steps[k], id))
  }

  /** A history that a scheduler saves: a complete path of the table that ends live or dead. */
  ghost predicate Settled(p: PlacementPlan) {
    Climbs(p) && (IsLive(p.state) || IsDead(p.state))
  }

  /** Every recovery of the run brings plan id back, if at all, with such a history. */
  ghost predicate RestoresSettled(steps: seq<Step>, id: nat) {
    forall k :: 0 <= k < |steps| && steps[k].DoRestore? ==> SnapshotSettled(steps[k].snapshot, id)
  }

  ghost predicate SnapshotSettled(p: Persisted, id: nat) {
    forall i :: 0 <= i < |p.plans| && p.plans[i].planId == id ==> Settled(p.plans[i])
  }

  /** A saved snapshot of a state where the plan's history climbs is of that kind. */
  lemma SavedIsSettled(s: Sched, id: nat)
    requires SchedOk(s) && ClimbsAt(s, id)
    ensures SnapshotSettled(Snapshot(s), id)
  {
    PlansListed(s);
    assert PlanAt(s, id);
  }

  lemma RestoreClimbs(s: Sched, p: Persisted, id: nat)
    requires SnapshotOk(p) && SnapshotSettled(p, id)
    ensures ClimbsAt(Restore(s, p), id)
  {
    var u := Loaded(s.config, p);
    PlanMapHolds(p.plans);
    if id in u.plans {
      var i :| 0 <= i < |p.plans| && p.plans[i].planId == id;
      SweptAt(Requeue, u.plans, u.nextEventOrdinal, id);
      if !IsTerminal(u.plans[id].state) { ClimbStep(u.plans[id], Restore(s, p).plans[id]); }
    }
  }

  lemma ClimbsNext(ys: seq<Sys>, steps: seq<Step>, k: nat, id: nat)
    requires IsRun(ys, steps) && k < |steps| && Inv(ys[k]) && ClimbsAt(ys[k].sched, id)
    requires NeverReopened(ys, steps, id) && RestoresSettled(steps, id)
    ensures ClimbsAt(ys[k + 1].sched, id)
  {
    assert StepAt(ys, steps, k);
    if steps[k].DoRestore? {
      RestoreClimbs(ys[k].sched, steps[k].snapshot, id);
    } else {
      StepClimbs(ys[k], steps[k], id);
    }
  }

  lemma {:induction false} ClimbsAlways(ys: seq<Sys>, steps: seq<Step>, k: nat, id: nat)
    requires IsRun(ys, steps) && Inv(ys[0]) && ClimbsAt(ys[0].sched, id) && k < |ys|
    requires NeverReopened(ys, steps, id) && RestoresSettled(steps, id)
    ensures ClimbsAt(ys[k].sched, id)
  {
    if k > 0 {
      ClimbsAlways(ys, steps, k - 1, id);
      InvAlways(ys, steps, k - 1);
      ClimbsNext(ys, steps, k - 1, id);
    }
  }

  /** From a fresh scheduler, recoveries included, a plan that is never forced out of a terminal state makes at
      most ten transitions in its life; its history records all of them, each one listed in the table and each
      one further on. */
  lemma TransitionsBounded(config: SchedulerModel.Config, authority: nat, ys: seq<Sys>, steps: seq<Step>, k: nat, id: nat)
    requires IsRun(ys, steps) && ys[0] == Start(config, authority) && k < |ys|
    requires NeverReopened(ys, steps, id) && RestoresSettled(steps, id) && id in ys[k].sched.plans
    ensures Climbs(ys[k].sched.plans[id]) && |ys[k].sched.plans[id].stateHistory| <= 10
  {
    StartOk(config, authority);
    ClimbsAlways(ys, steps, k, id);
  }

  /** At every point of every run, recoveries included: a plan is filed under its own id, below the counter; its
      history is short, strictly increasing, below the event counter, and ends in its state until it is full;
      and no event ordinal occurs in two plans. */
  lemma HistoriesAlways(ys: seq<Sys>, steps: seq<Step>, k: nat, a: nat, b: nat)
    requires IsRun(ys, steps) && Inv(ys[0]) && k < |ys| && a in ys[k].sched.plans && b in ys[k].sched.plans
    ensures var s := ys[k].sched;
      && s.plans[a].planId == a < s.nextPlanId
      && HistoryOk(s.plans[a].stateHistory, s.plans[a].state, s.nextEventOrdinal)
      && (a != b ==> Apart(s.plans[a].stateHistory, s.plans[b].stateHistory))
  {
    InvAlways(ys, steps, k);
    assert PlanAt(ys[k].sched, a) && ApartAt(ys[k].sched.plans, a, b);
  }

  /** At every point of every run a live plan carries the scheduler's present epoch and authority, the index
      names the largest plan id of each request, and no plan of a cancelled request is engaged. */
  lemma StandingAlways(ys: seq<Sys>, steps: seq<Step>, k: nat, id: nat)
    requires IsRun(ys, steps) && Inv(ys[0]) && k < |ys| && id in ys[k].sched.plans
    ensures var s := ys[k].sched; var p := s.plans[id];
      && PlanStanding(s, p)
      && p.requestId in s.latest && id <= s.latest[p.requestId]
      && s.latest[p.requestId] in s.plans && s.plans[s.latest[p.requestId]].requestId == p.requestId
  {
    InvAlways(ys, steps, k);
    assert PlanAt(ys[k].sched, id) && LatestAt(ys[k].sched, ys[k].sched.plans[id].requestId);
  }
}
