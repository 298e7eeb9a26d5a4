/** The safety theorems: no stale launch, conservation of grants, at most one launch, fencing. */
module Safety {
  import opened Types
  import opened Lifecycle
  import opened Eligibility
  import opened Ranking
  import opened Sequences
  import opened Selection
  import opened SchedulerModel
  import opened Snapshots
  import opened Invariants
  import opened System
  import opened SystemInvariant
  import opened Runs

  // --- no stale launch ------------------------------------------------------------------------

  /** The step takes effect against plan id: an epoch that moves, the cancellation or supersession of its
      request, or a revalidation whose fingerprint diverges. */
  ghost predicate Kills(y: Sys, step: Step, id: nat) {
    id in y.sched.plans &&
    match step
    case DoSetEpoch(e) => e > y.sched.epoch
    case FenceBumps(c) => c in y.calls && y.calls[c].FenceRead? && y.calls[c].seen + 1 > y.sched.epoch
    case DoCancel(r) => y.sched.plans[id].requestId == r
    case DoSupersede(o, _, _, _) => y.sched.plans[id].requestId == o
    case DoRevalidate(p, fp) => p == id && y.sched.plans[id].generations != fp
    case _ => false
  }

  /** The step returns a successful commit or an authorized handoff for plan id. */
  ghost predicate Launches(y: Sys, step: Step, id: nat) {
    match step
    case CommitFinishes(c) =>
      && c in y.calls && y.calls[c].CommitAnswered? && y.calls[c].plan == id
      && FinishCommit(y.sched, id, y.calls[c].claims, y.calls[c].answer).1.succeeded
    case HandoffFinishes(c) =>
      && c in y.calls && y.calls[c].HandoffAnswered? && y.calls[c].plan == id
      && HandoffResult(y, c).Ok? && HandoffResult(y, c).value.authorized
    case _ => false
  }

  lemma KillingStep(y: Sys, step: Step, id: nat)
    requires Inv(y) && Enabled(y, step) && Kills(y, step, id)
    ensures DeadIn(Apply(y, step).sched, id)
  {
    match step
    case DoSetEpoch(e) => SetEpochKeeps(y.sched, e);
    case FenceBumps(c) => SetEpochKeeps(y.sched, y.calls[c].seen + 1);
    case DoCancel(r) => CancelKeeps(y.sched, r);
    case DoSupersede(o, n, reason, entry) => SupersedeKeeps(y.sched, o, n, reason, entry);
    case DoRevalidate(_, fp) => RevalidateKeeps(y.sched, id, fp);
  }

  lemma KilledNext(ys: seq<Sys>, steps: seq<Step>, i: nat, id: nat)
    requires IsRun(ys, steps) && i < |steps| && Inv(ys[i]) && Kills(ys[i], steps[i], id)
    ensures DeadIn(ys[i + 1].sched, id)
  {
    assert StepAt(ys, steps, i);
    KillingStep(ys[i], steps[i], id);
  }

  /** What a launch needs at the moment it returns: the plan is live, stamped with the current authority, and
      its request is not cancelled. */
  lemma LaunchNeedsLive(y: Sys, step: Step, id: nat)
    requires Inv(y) && Launches(y, step, id)
    ensures id in y.sched.plans && IsLive(y.sched.plans[id].state) && Undisturbed(y.sched, id)
    ensures y.sched.plans[id].state == if step.CommitFinishes? then AwaitingResourceCommit else AwaitingExecution
  {
    match step
    case CommitFinishes(c) => StaleIsStateTest(y, c);
    case HandoffFinishes(c) => LaunchIsActive(y, c);
  }

  /** A dead plan is never launched again. */
  lemma DeadNeverLaunches(ys: seq<Sys>, steps: seq<Step>, i: nat, j: nat, id: nat)
    requires IsRun(ys, steps) && Inv(ys[0]) && i <= j < |steps| && SameIncarnation(steps, i, j) && DeadIn(ys[i].sched, id)
    ensures !Launches(ys[j], steps[j], id)
  {
    InvAlways(ys, steps, j);
    StaysDead(ys, steps, i, j, id);
    if Launches(ys[j], steps[j], id) { LaunchNeedsLive(ys[j], steps[j], id); }
  }

  /** In every interleaving, once a killing step has taken effect on a plan, no later commit of it succeeds and
      no later handoff of it is authorized. */
  lemma NoStaleLaunch(ys: seq<Sys>, steps: seq<Step>, i: nat, j: nat, id: nat)
    requires IsRun(ys, steps) && Inv(ys[0]) && i < j < |steps| && SameIncarnation(steps, i, j)
    requires Kills(ys[i], steps[i], id)
    ensures !Launches(ys[j], steps[j], id)
  {
    InvAlways(ys, steps, i);
    KilledNext(ys, steps, i, id);
    DeadNeverLaunches(ys, steps, i + 1, j, id);
  }

  /** The second block of a handoff raises exactly when the executor authorized a plan that died between the
      blocks without a cancellation or a new authority, that is, by supersession or revalidation. */
  lemma HandoffRaisesIff(y: Sys, c: nat)
    requires Inv(y) && c in y.calls && y.calls[c].HandoffAnswered?
    ensures y.calls[c].plan in y.sched.plans
    ensures HandoffResult(y, c) == Err(IllegalLifecycleTransition) <==>
      y.calls[c].handoff.authorized && Undisturbed(y.sched, y.calls[c].plan) && IsDead(y.sched.plans[y.calls[c].plan].state)
    ensures HandoffResult(y, c).Ok? && HandoffResult(y, c).value.authorized <==>
      y.calls[c].handoff.authorized && y.sched.plans[y.calls[c].plan].state == AwaitingExecution
  {
    var id := y.calls[c].plan;
    assert CallAt(y, c) && PlanAt(y.sched, id);
    AdvanceRewrites(y.sched.plans[id], y.sched.nextEventOrdinal);
  }

  // --- in-flight correspondence ---------------------------------------------------------------

  /** A plan waits for the broker (or the executor) exactly while one call works on it: there is one, and no
      other. */
  lemma WaitingHasOneCall(y: Sys, id: nat)
    requires Inv(y) && id in y.sched.plans
    ensures y.sched.plans[id].state == AwaitingResourceCommit ==>
      exists c :: c in y.calls && OnCommit(y.calls[c], id) && forall d :: d in y.calls && OnCommit(y.calls[d], id) ==> d == c
    ensures y.sched.plans[id].state == AwaitingExecution ==>
      exists c :: c in y.calls && OnHandoff(y.calls[c], id) && forall d :: d in y.calls && OnHandoff(y.calls[d], id) ==> d == c
  {
    assert WaitedAt(y, id);
    if y.sched.plans[id].state == AwaitingResourceCommit {
      var c :| c in y.calls && OnCommit(y.calls[c], id);
      forall d | d in y.calls && OnCommit(y.calls[d], id) ensures d == c { assert OneAt(y, c, d); }
    }
    if y.sched.plans[id].state == AwaitingExecution {
      var c :| c in y.calls && OnHandoff(y.calls[c], id);
      forall d | d in y.calls && OnHandoff(y.calls[d], id) ensures d == c { assert OneAt(y, c, d); }
    }
  }

  /** With no commit or handoff in flight every plan is ready, committed, active or dead. */
  lemma QuiescentStates(y: Sys, id: nat)
    requires Inv(y) && id in y.sched.plans
    requires forall c :: c in y.calls ==> !OnCommit(y.calls[c], id) && !OnHandoff(y.calls[c], id)
    ensures var s := y.sched.plans[id].state; s == PlanReady || s == Committed || s == Active || IsDead(s)
  {
    assert PlanAt(y.sched, id) && WaitedAt(y, id);
  }

  /** At every point of a run each plan has gone to the broker at most once and been launched at most once,
      and a plan past commitment carries its evidence. */
  lemma AtMostOnce(ys: seq<Sys>, steps: seq<Step>, k: nat, id: nat)
    requires IsRun(ys, steps) && Inv(ys[0]) && k < |ys|
    ensures ys[k].sent[id] <= 1 && ys[k].launched[id] <= 1
    ensures id in ys[k].sched.plans && NeedsEvidence(ys[k].sched.plans[id].state) ==> ys[k].sched.plans[id].hasCommitmentEvidence
  {
    InvAlways(ys, steps, k);
    assert OnceAt(ys[k], id) && PlanAt(ys[k].sched, id);
  }

  /** The claims that went to the broker are the plan's own, and are what the plan holds once committed. */
  lemma ClaimsStand(ys: seq<Sys>, steps: seq<Step>, k: nat, c: nat)
    requires IsRun(ys, steps) && Inv(ys[0]) && k < |ys|
    requires c in ys[k].calls && (ys[k].calls[c].CommitAsked? || ys[k].calls[c].CommitAnswered?)
    ensures ys[k].calls[c].plan in ys[k].sched.plans
    ensures ys[k].calls[c].claims == ys[k].sched.plans[ys[k].calls[c].plan].claims
  {
    InvAlways(ys, steps, k);
    assert CallAt(ys[k], c);
  }

  /** The plan the executor is asked about is the stored plan, as it was when it was committed. */
  lemma ShownPlanStands(ys: seq<Sys>, steps: seq<Step>, k: nat, c: nat)
    requires IsRun(ys, steps) && Inv(ys[0]) && k < |ys| && c in ys[k].calls && ys[k].calls[c].HandoffAsked?
    ensures ys[k].calls[c].plan in ys[k].sched.plans
    ensures ShownAs(ys[k].sched.plans[ys[k].calls[c].plan], ys[k].calls[c].sent)
  {
    InvAlways(ys, steps, k);
    assert CallAt(ys[k], c);
  }

  // --- conservation of grants -----------------------------------------------------------------

  ghost function HeldGrants(y: Sys): multiset<Grant> {
    multiset(set c | c in y.calls && y.calls[c].Releasing? :: (c, y.calls[c].token))
    + multiset(set c | c in y.calls && y.calls[c].CommitAnswered? && y.calls[c].answer.succeeded && y.calls[c].answer.token != []
                 :: (c, y.calls[c].answer.token))
  }

  /** Every token the broker granted is accounted for: returned to a caller, released, or still held by a call
      in flight, and each exactly once. */
  lemma GrantsConserved(y: Sys)
    requires Inv(y)
    ensures y.granted == y.returned + y.released + HeldGrants(y)
    ensures |y.granted| == |y.returned| + |y.released| + |HeldGrants(y)|
    ensures forall g :: y.granted[g] <= 1
  {
    forall g ensures y.granted[g] == (y.returned + y.released + HeldGrants(y))[g] {
      assert GrantAt(y, g);
      HeldCount(y, g);
    }
    forall g ensures y.granted[g] <= 1 { assert GrantAt(y, g); }
  }

  lemma HeldCount(y: Sys, g: Grant)
    requires Inv(y)
    ensures HeldGrants(y)[g] == Held(y, g)
  {
    assert CallAt(y, g.0);
  }

  /** Once a call has ended its grant has been returned or released, one of the two, exactly once. */
  lemma EndedGrantSettled(ys: seq<Sys>, steps: seq<Step>, k: nat, g: Grant)
    requires IsRun(ys, steps) && Inv(ys[0]) && k < |ys|
    requires g in ys[k].granted && g.0 !in ys[k].calls
    ensures ys[k].returned[g] + ys[k].released[g] == 1
  {
    InvAlways(ys, steps, k);
    assert GrantAt(ys[k], g);
  }

  // --- fencing --------------------------------------------------------------------------------

  lemma EpochStepKills(ys: seq<Sys>, steps: seq<Step>, k: nat, id: nat)
    requires IsRun(ys, steps) && k < |steps| && Inv(ys[k]) && !steps[k].DoRestore? && id in ys[k].sched.plans
    requires ys[k + 1].sched.epoch > ys[k].sched.epoch
    ensures DeadIn(ys[k + 1].sched, id)
  {
    assert StepAt(ys, steps, k);
    StepFrame(ys[k], steps[k]);
    KillingStep(ys[k], steps[k], id);
  }

  /** If the epoch has moved between two points, every plan stored at the first is dead at the second. */
  lemma {:induction false} EpochAdvanceKills(ys: seq<Sys>, steps: seq<Step>, i: nat, j: nat, id: nat)
    requires IsRun(ys, steps) && Inv(ys[0]) && i <= j < |ys| && SameIncarnation(steps, i, j)
    requires id in ys[i].sched.plans && ys[j].sched.epoch > ys[i].sched.epoch
    ensures DeadIn(ys[j].sched, id)
  {
    var y := ys[j - 1];
    InvAlways(ys, steps, j - 1);
    if y.sched.epoch > ys[i].sched.epoch {
      EpochAdvanceKills(ys, steps, i, j - 1, id);
      StaysDead(ys, steps, j - 1, j, id);
    } else {
      DeadAbsorbs(ys, steps, i, j - 1);
      assert StillAt(ys[i], y, id);
      EpochStepKills(ys, steps, j - 1, id);
    }
  }

  // A call that holds a reading or an answer keeps it until it ends or goes on to release a token.
  predicate Holding(call: Call) {
    call.FenceRead? || call.CommitAnswered? || call.HandoffAnswered?
  }

  ghost predicate Stands(y: Sys, c: nat, call: Call) {
    c < y.nextCall && (c in y.calls && !y.calls[c].Releasing? ==> y.calls[c] == call)
  }

  lemma StandsStep(y: Sys, step: Step, c: nat, call: Call)
    requires Enabled(y, step) && Holding(call) && Stands(y, c, call)
    ensures Stands(Apply(y, step), c, call)
  {
    if IsExternal(step) { StandsExternal(y, step, c, call); }
    else if IsDirect(step) { StandsDirect(y, step, c, call); }
    else { StandsOther(y, step, c, call); }
  }

  lemma StandsExternal(y: Sys, step: Step, c: nat, call: Call)
    requires Enabled(y, step) && IsExternal(step) && Holding(call) && Stands(y, c, call)
    ensures Stands(Apply(y, step), c, call)
  {
    match step
    case CommitFinishes(d) => StandsReturns(y, d, c, call);
    case HandoffFinishes(d) => StandsReturns(y, d, c, call);
    case _ =>
  }

  lemma StandsReturns(y: Sys, d: nat, c: nat, call: Call)
    requires Holding(call) && Stands(y, c, call)
    ensures d in y.calls && y.calls[d].CommitAnswered? ==> Stands(CommitReturned(y, d), c, call)
    ensures d in y.calls && y.calls[d].HandoffAnswered? ==> Stands(HandoffReturned(y, d), c, call)
  {}

  lemma StandsDirect(y: Sys, step: Step, c: nat, call: Call)
    requires Enabled(y, step) && IsDirect(step) && Stands(y, c, call)
    ensures Stands(Apply(y, step), c, call)
  {}

  lemma StandsOther(y: Sys, step: Step, c: nat, call: Call)
    requires Enabled(y, step) && !IsDirect(step) && !IsExternal(step) && Holding(call) && Stands(y, c, call)
    ensures Stands(Apply(y, step), c, call)
  {}

  lemma {:induction false} StandsAlways(ys: seq<Sys>, steps: seq<Step>, i: nat, j: nat, c: nat, call: Call)
    requires IsRun(ys, steps) && i <= j < |ys| && Holding(call) && Stands(ys[i], c, call)
    ensures Stands(ys[j], c, call)
  {
    if i < j {
      StandsAlways(ys, steps, i, j - 1, c, call);
      assert StepAt(ys, steps, j - 1);
      StandsStep(ys[j - 1], steps[j - 1], c, call);
    }
  }

  lemma ReadingTaken(ys: seq<Sys>, steps: seq<Step>, i: nat, j: nat, c: nat)
    requires IsRun(ys, steps) && Inv(ys[0]) && i < j < |steps| && steps[i] == FenceReads(c) && steps[j] == FenceBumps(c)
    ensures c in ys[j].calls && ys[j].calls[c].FenceRead? && ys[j].calls[c].seen == ys[i].sched.epoch
  {
    assert StepAt(ys, steps, i) && StepAt(ys, steps, j);
    InvAlways(ys, steps, i);
    assert CallAt(ys[i], c);
    StandsAlways(ys, steps, i + 1, j, c, FenceRead(ys[i].calls[c].boot, ys[i].sched.epoch));
  }

  /** fence_worker_and_bump under races: when it returns, every plan stored when it read the epoch is dead, even
      if a racing bump made its own set_epoch a no-op or a swallowed regression. */
  lemma FenceKills(ys: seq<Sys>, steps: seq<Step>, i: nat, j: nat, c: nat, id: nat)
    requires IsRun(ys, steps) && Inv(ys[0]) && i < j < |steps| && SameIncarnation(steps, i, j + 1)
    requires steps[i] == FenceReads(c) && steps[j] == FenceBumps(c)
    requires id in ys[i].sched.plans
    ensures DeadIn(ys[j + 1].sched, id)
  {
    InvAlways(ys, steps, j);
    ReadingTaken(ys, steps, i, j, c);
    if ys[j].sched.epoch > ys[i].sched.epoch {
      EpochAdvanceKills(ys, steps, i, j, id);
      StaysDead(ys, steps, j, j + 1, id);
    } else {
      DeadAbsorbs(ys, steps, i, j);
      assert StillAt(ys[i], ys[j], id);
      KilledNext(ys, steps, j, id);
    }
  }

  // A live plan was stored by a recorded call, one that has been opened.
  ghost predicate OriginAt(y: Sys, id: nat) {
    && (id in y.origin ==> y.origin[id].call < y.nextCall)
    && (id in y.sched.plans && IsLive(y.sched.plans[id].state) ==> id in y.origin)
  }

  ghost predicate OriginsOk(y: Sys) {
    forall id {:trigger OriginAt(y, id)} :: OriginAt(y, id)
  }

  lemma StoredOrigins(y: Sys, c: nat, v: Verdict)
    requires Inv(y) && OriginsOk(y) && c in y.calls && y.calls[c].Filtering?
    ensures OriginsOk(Stored(y, c, v))
  {
    var z := Stored(y, c, v);
    assert CallAt(y, c);
    assert z.sched.plans.Keys <= y.sched.plans.Keys + {y.sched.nextPlanId};
    StoreStep(y, c, v);
    forall id ensures OriginAt(z, id) { assert OriginAt(y, id) && EvolvedAt(y.sched.plans, z.sched.plans, id); }
  }

  lemma FrameKeepsOrigins(y: Sys, step: Step, z: Sys)
    requires OriginsOk(y) && Forward(y, z) && Frame(y, step, z) && !step.ScheduleStores?
    ensures OriginsOk(z)
  {
    forall id ensures OriginAt(z, id) { assert OriginAt(y, id) && EvolvedAt(y.sched.plans, z.sched.plans, id); }
  }

  lemma RecoveredOrigins(y: Sys, p: Persisted)
    requires SnapshotOk(p)
    ensures OriginsOk(Recovered(y, p))
  {
    forall id ensures OriginAt(Recovered(y, p), id) { RestoredDead(y.sched, p, id); }
  }

  lemma RestoredDead(s: Sched, p: Persisted, id: nat)
    requires SnapshotOk(p)
    ensures id in Restore(s, p).plans ==> IsDead(Restore(s, p).plans[id].state)
  {
    RestoreRecovers(s, p);
  }

  lemma OriginStep(y: Sys, step: Step)
    requires Inv(y) && Enabled(y, step) && OriginsOk(y)
    ensures OriginsOk(Apply(y, step))
  {
    if step.DoRestore? {
      RecoveredOrigins(y, step.snapshot);
    } else if step.ScheduleStores? {
      StoredOrigins(y, step.call, VerdictOf(y.calls[step.call], step.ranked, step.factors, step.dependency));
    } else {
      StepKeeps(y, step);
      StepFrame(y, step);
      FrameKeepsOrigins(y, step, Apply(y, step));
    }
  }

  lemma OriginsNext(ys: seq<Sys>, steps: seq<Step>, k: nat)
    requires IsRun(ys, steps) && k < |steps| && Inv(ys[k]) && OriginsOk(ys[k])
    ensures OriginsOk(ys[k + 1])
  {
    assert StepAt(ys, steps, k);
    OriginStep(ys[k], steps[k]);
  }

  lemma {:induction false} OriginsAlways(ys: seq<Sys>, steps: seq<Step>, k: nat)
    requires IsRun(ys, steps) && Inv(ys[0]) && OriginsOk(ys[0]) && k < |ys|
    ensures OriginsOk(ys[k])
  {
    if k > 0 {
      OriginsAlways(ys, steps, k - 1);
      InvAlways(ys, steps, k - 1);
      OriginsNext(ys, steps, k - 1);
    }
  }

  /** The coordinator's veto: each filter step allows a candidate exactly when its boot is not fenced then. */
  ghost predicate LiveVeto(y: Sys, step: Step) {
    step.ScheduleFilters? && step.call in y.calls && y.calls[step.call].Filtering? && y.calls[step.call].pending != [] ==>
      step.gates.allows == Some(y.calls[step.call].pending[0].workerBootId !in y.fenced)
  }

  // No call opened at or after `first` has let a candidate of the boot through.
  ghost predicate BootShut(y: Sys, boot: nat, first: nat) {
    && boot in y.fenced && first <= y.nextCall
    && (forall c :: c in y.calls && c >= first && y.calls[c].Filtering? ==>
          forall x :: x in y.calls[c].eligible ==> x.workerBootId != boot)
    && (forall id :: id in y.origin && y.origin[id].call >= first ==> y.origin[id].boot != boot)
  }

  lemma ShutStore(y: Sys, c: nat, v: Verdict, boot: nat, first: nat)
    requires c in y.calls && y.calls[c].Filtering? && BootShut(y, boot, first)
    requires forall x :: x in v.ranked ==> x in y.calls[c].eligible
    ensures BootShut(Stored(y, c, v), boot, first)
  {
    if v.ranked != [] { assert v.ranked[0] in v.ranked; }
  }

  lemma RankedAreEligible(d: DemandProfile, w: Weights, eligible: seq<Candidate>, ranked: seq<Candidate>)
    requires IsRanking(d, w, eligible, ranked)
    ensures forall x :: x in ranked ==> x in eligible
  {
    forall x | x in ranked ensures x in eligible { SameMembers(ranked, eligible, x); }
  }

  lemma ShutFilter(y: Sys, c: nat, gates: Gates, why: Text, boot: nat, first: nat)
    requires Enabled(y, ScheduleFilters(c, gates, why)) && LiveVeto(y, ScheduleFilters(c, gates, why)) && BootShut(y, boot, first)
    ensures BootShut(y.(calls := y.calls[c := Filtered(y.calls[c], gates, why)]), boot, first)
  {
    var x := y.calls[c].pending[0];
    if x.workerBootId == boot {
      assert gates.allows == Some(false);
      assert Filter(y.calls[c].request.demand, x, gates) != Eligible;
    }
  }

  lemma ShutStep(y: Sys, step: Step, boot: nat, first: nat)
    requires Enabled(y, step) && !step.DoRestore? && LiveVeto(y, step) && BootShut(y, boot, first)
    ensures BootShut(Apply(y, step), boot, first)
  {
    if step.ScheduleStores? {
      var call := y.calls[step.call];
      RankedAreEligible(call.request.demand, y.sched.config.weights, call.eligible, step.ranked);
      ShutStore(y, step.call, VerdictOf(call, step.ranked, step.factors, step.dependency), boot, first);
    } else if step.ScheduleFilters? {
      ShutFilter(y, step.call, step.gates, step.why, boot, first);
    } else {
      StepFrame(y, step);
    }
  }

  lemma {:induction false} ShutAlways(ys: seq<Sys>, steps: seq<Step>, i: nat, j: nat, boot: nat, first: nat)
    requires IsRun(ys, steps) && i <= j < |ys| && SameIncarnation(steps, i, j) && BootShut(ys[i], boot, first)
    requires forall k :: i <= k < j ==> LiveVeto(ys[k], steps[k])
    ensures BootShut(ys[j], boot, first)
  {
    if i < j {
      ShutAlways(ys, steps, i, j - 1, boot, first);
      assert StepAt(ys, steps, j - 1);
      ShutStep(ys[j - 1], steps[j - 1], boot, first);
    }
  }

  lemma ListingShuts(ys: seq<Sys>, steps: seq<Step>, i: nat, c: nat)
    requires IsRun(ys, steps) && Inv(ys[0]) && OriginsOk(ys[0]) && i < |steps| && steps[i] == FenceLists(c)
    ensures c in ys[i].calls && ys[i].calls[c].FenceMarked? && BootShut(ys[i + 1], ys[i].calls[c].boot, ys[i].nextCall)
  {
    InvAlways(ys, steps, i);
    OriginsAlways(ys, steps, i);
    assert StepAt(ys, steps, i);
    assert forall d :: d in ys[i].calls ==> CallAt(ys[i], d);
    assert forall x :: x in ys[i].origin ==> OriginAt(ys[i], x);
  }

  /** After fence_worker_and_bump(boot) has returned, a live plan on that boot comes from a schedule call that
      overlapped the fencing: it began before the boot was listed and stored its plan after the epoch was read. */
  lemma LivePlanOverlapsFence(ys: seq<Sys>, steps: seq<Step>, i: nat, m: nat, n: nat, k: nat, c: nat, id: nat)
    requires IsRun(ys, steps) && Inv(ys[0]) && OriginsOk(ys[0]) && i < m < n < k < |ys| && SameIncarnation(steps, i, k)
    requires steps[i] == FenceLists(c) && steps[m] == FenceReads(c) && steps[n] == FenceBumps(c)
    requires forall x :: i < x < k ==> LiveVeto(ys[x], steps[x])
    requires id in ys[k].sched.plans && IsLive(ys[k].sched.plans[id].state)
    requires id in ys[k].origin && c in ys[i].calls && OnFence(ys[i].calls[c], ys[k].origin[id].boot)
    ensures ys[k].origin[id].call < ys[i].nextCall && id !in ys[m].sched.plans
  {
    ListingShuts(ys, steps, i, c);
    ShutAlways(ys, steps, i + 1, k, ys[i].calls[c].boot, ys[i].nextCall);
    if id in ys[m].sched.plans { FencedStaysDead(ys, steps, m, n, k, c, id); }
  }

  lemma FencedStaysDead(ys: seq<Sys>, steps: seq<Step>, m: nat, n: nat, k: nat, c: nat, id: nat)
    requires IsRun(ys, steps) && Inv(ys[0]) && m < n < k < |ys| && SameIncarnation(steps, m, k)
    requires steps[m] == FenceReads(c) && steps[n] == FenceBumps(c) && id in ys[m].sched.plans
    ensures DeadIn(ys[k].sched, id)
  {
    FenceKills(ys, steps, m, n, c, id);
    StaysDead(ys, steps, n + 1, k, id);
  }

  predicate OnFence(call: Call, boot: nat) {
    (call.FenceMarked? || call.FenceListed? || call.FenceRead?) && call.boot == boot
  }

  lemma StartOrigins(config: SchedulerModel.Config, authority: nat)
    ensures OriginsOk(Start(config, authority))
  {
    forall id ensures OriginAt(Start(config, authority), id) {}
  }

  /** Every live plan has a recorded origin, so the theorem above speaks about all of them. */
  lemma LivePlanHasOrigin(ys: seq<Sys>, steps: seq<Step>, k: nat, id: nat)
    requires IsRun(ys, steps) && Inv(ys[0]) && OriginsOk(ys[0]) && k < |ys|
    requires id in ys[k].sched.plans && IsLive(ys[k].sched.plans[id].state)
    ensures id in ys[k].origin && ys[k].origin[id].call < ys[k].nextCall
  {
    OriginsAlways(ys, steps, k);
    assert OriginAt(ys[k], id);
  }
}
