/** Theorems about every run of the system: what each step keeps, what a death means, and what it takes to
    launch. */
module Runs {
  import opened Types
  import opened Lifecycle
  import opened Eligibility
  import opened SchedulerModel
  import opened Snapshots
  import opened Invariants
  import opened System
  import opened SystemInvariant

  // --- every step keeps the invariant ---------------------------------------------------------

  lemma StartOk(config: SchedulerModel.Config, authority: nat)
    ensures Inv(Start(config, authority))
  {
    var y := Start(config, authority);
    forall id ensures PlanAt(y.sched, id) {}
    forall a, b ensures ApartAt(y.sched.plans, a, b) {}
    forall r ensures LatestAt(y.sched, r) && RequestAt(y.sched, r) && CandidateAt(y.sched, r) {}
    forall c ensures CallAt(y, c) && WaitedAt(y, c) && OnceAt(y, c) {}
    forall a, b ensures OneAt(y, a, b) {}
    forall g ensures GrantAt(y, g) {}
  }

  lemma SchedForward(y: Sys, t: Sched)
    requires Inv(y) && SchedOk(t) && Evolves(y.sched.plans, t.plans) && OnlyKills(y.sched.plans, t.plans)
    requires y.sched.epoch <= t.epoch && y.sched.authority <= t.authority
    requires y.sched.candidates.Keys <= t.candidates.Keys && y.sched.cancelled <= t.cancelled
    ensures Inv(y.(sched := t)) && Forward(y, y.(sched := t))
  {
    SchedStep(y, t);
  }

  lemma SetEpochStep(y: Sys, e: nat)
    requires Inv(y) && SetEpoch(y.sched, e).Ok?
    ensures var z := y.(sched := SetEpoch(y.sched, e).value); Inv(z) && Forward(y, z)
  {
    SetEpochKeeps(y.sched, e);
    SchedForward(y, SetEpoch(y.sched, e).value);
  }

  lemma IngestStep(y: Sys, c: Candidate)
    requires Inv(y) && Ingest(y.sched, c).Ok?
    ensures var z := y.(sched := Ingest(y.sched, c).value); Inv(z) && Forward(y, z)
  {
    IngestKeeps(y.sched, c);
    SamePlansEvolve(y.sched.plans);
    SchedForward(y, Ingest(y.sched, c).value);
  }

  lemma FenceStep(y: Sys, t: Sched)
    requires Inv(y) && t == y.sched.(fencedWorkers := t.fencedWorkers, fencedSources := t.fencedSources)
    ensures Inv(y.(sched := t)) && Forward(y, y.(sched := t))
  {
    SameState(y.sched, t);
    SamePlansEvolve(y.sched.plans);
    SchedForward(y, t);
  }

  lemma RevalidateStep(y: Sys, id: nat, fp: GenerationFingerprint)
    requires Inv(y) && Revalidate(y.sched, id, fp).Ok?
    ensures var z := y.(sched := Revalidate(y.sched, id, fp).value.0); Inv(z) && Forward(y, z)
  {
    if y.sched.plans[id].generations != fp {
      RevalidateKeeps(y.sched, id, fp);
      SchedForward(y, Revalidate(y.sched, id, fp).value.0);
    } else {
      assert y.(sched := y.sched) == y;
      SamePlansEvolve(y.sched.plans);
    }
  }

  lemma QuietForward(y: Sys, z: Sys, c: nat)
    requires Inv(y) && z == y.(calls := z.calls, nextCall := z.nextCall, fenced := z.fenced) && OthersSame(y, z, c)
    requires z.nextCall >= y.nextCall && CallAt(z, c) && y.fenced <= z.fenced
    requires c in y.calls ==> y.calls[c].Filtering? || y.calls[c].FenceMarked? || y.calls[c].FenceListed? || y.calls[c].FenceRead?
    requires c in z.calls ==> z.calls[c].Filtering? || z.calls[c].FenceMarked? || z.calls[c].FenceListed? || z.calls[c].FenceRead?
    ensures Inv(z) && Forward(y, z)
  {
    QuietCallStep(y, z, c);
    SamePlansEvolve(y.sched.plans);
  }

  lemma FenceMarksStep(y: Sys, b: nat)
    requires Inv(y)
    ensures Inv(FenceOpened(y, b)) && Forward(y, FenceOpened(y, b))
  {
    var m := y.(sched := FenceWorker(y.sched, b));
    FenceStep(y, m.sched);
    NextCallUnused(m);
    QuietForward(m, FenceOpened(y, b), m.nextCall);
  }

  lemma BumpStep(y: Sys, seen: nat)
    requires Inv(y)
    ensures var z := y.(sched := Bumped(y.sched, seen)); Inv(z) && Forward(y, z)
  {
    if SetEpoch(y.sched, seen + 1).Ok? {
      SetEpochStep(y, seen + 1);
    } else {
      assert y.(sched := y.sched) == y;
      SamePlansEvolve(y.sched.plans);
    }
  }

  lemma FenceEnds(y: Sys, c: nat)
    requires Inv(y) && c in y.calls && y.calls[c].FenceRead?
    ensures Inv(y.(calls := y.calls - {c}))
  {
    QuietForward(y, y.(calls := y.calls - {c}), c);
  }

  lemma FenceBumpsStep(y: Sys, c: nat)
    requires Inv(y) && c in y.calls && y.calls[c].FenceRead?
    ensures Inv(FenceBumped(y, c)) && Forward(y, FenceBumped(y, c))
  {
    var m := y.(sched := Bumped(y.sched, y.calls[c].seen));
    BumpStep(y, y.calls[c].seen);
    FenceEnds(m, c);
    assert FenceBumped(y, c) == m.(calls := m.calls - {c});
  }

  lemma FilterStep(y: Sys, c: nat, gates: Gates, why: Text)
    requires Inv(y) && Enabled(y, ScheduleFilters(c, gates, why))
    ensures var z := y.(calls := y.calls[c := Filtered(y.calls[c], gates, why)]); Inv(z) && Forward(y, z)
  {
    assert CallAt(y, c);
    QuietForward(y, y.(calls := y.calls[c := Filtered(y.calls[c], gates, why)]), c);
  }

  lemma EmptyCallsOk(y: Sys)
    requires y.calls == map[] && forall id :: id in y.sched.plans ==> IsDead(y.sched.plans[id].state)
    ensures CallsOk(y)
  {
    forall c ensures CallAt(y, c) && WaitedAt(y, c) {}
    forall a, b ensures OneAt(y, a, b) {}
  }

  lemma RestoreStep(y: Sys, p: Persisted)
    requires Inv(y) && y.calls == map[] && SnapshotOk(p)
    ensures Inv(Recovered(y, p))
  {
    var z := Recovered(y, p);
    RestoreRecovers(y.sched, p);
    EmptyCallsOk(z);
    forall id ensures OnceAt(z, id) {}
    forall g ensures GrantAt(z, g) { assert GrantAt(y, g); }
  }

  predicate IsDirect(step: Step) {
    || step.DoSetEpoch? || step.DoIngest? || step.DoFenceWorker? || step.DoFenceSource? || step.DoCancel?
    || step.DoSupersede? || step.DoRevalidate? || step.DoRestore?
  }

  lemma DirectStepKeeps(y: Sys, step: Step)
    requires Inv(y) && Enabled(y, step) && IsDirect(step)
    ensures Inv(Apply(y, step)) && (!step.DoRestore? ==> Forward(y, Apply(y, step)))
  {
    SamePlansEvolve(y.sched.plans);
    match step
    case DoSetEpoch(e) => if SetEpoch(y.sched, e).Ok? { SetEpochStep(y, e); }
    case DoIngest(c) => if Ingest(y.sched, c).Ok? { IngestStep(y, c); }
    case DoFenceWorker(b) => FenceStep(y, FenceWorker(y.sched, b));
    case DoFenceSource(b) => FenceStep(y, FenceSource(y.sched, b));
    case DoCancel(r) => CancelKeeps(y.sched, r); SchedForward(y, Cancel(y.sched, r));
    case DoSupersede(o, n, reason, entry) =>
      SupersedeKeeps(y.sched, o, n, reason, entry);
      SchedForward(y, Supersede(y.sched, o, n, reason, entry));
    case DoRevalidate(id, fp) => if Revalidate(y.sched, id, fp).Ok? { RevalidateStep(y, id, fp); }
    case DoRestore(p) => RestoreStep(y, p);
  }

  lemma ScheduleStepKeeps(y: Sys, step: Step)
    requires Inv(y) && Enabled(y, step) && (step.ScheduleBegins? || step.ScheduleFilters? || step.ScheduleStores?)
    ensures Inv(Apply(y, step)) && Forward(y, Apply(y, step))
  {
    SamePlansEvolve(y.sched.plans);
    match step
    case ScheduleBegins(r) =>
      NextCallUnused(y);
      if Demand.DemandError(r.demand).None? { QuietForward(y, Opened(y, Filtering(r, InOrder(y.sched.candidates), [], [])), y.nextCall); }
    case ScheduleFilters(c, gates, why) => FilterStep(y, c, gates, why);
    case ScheduleStores(c, ranked, fs, dependency) => StoreStep(y, c, VerdictOf(y.calls[c], ranked, fs, dependency));
  }

  lemma FenceStepKeeps(y: Sys, step: Step)
    requires Inv(y) && Enabled(y, step) && (step.FenceMarks? || step.FenceLists? || step.FenceReads? || step.FenceBumps?)
    ensures Inv(Apply(y, step)) && Forward(y, Apply(y, step))
  {
    match step
    case FenceMarks(b) => FenceMarksStep(y, b);
    case FenceLists(c) =>
      assert CallAt(y, c);
      QuietForward(y, y.(calls := y.calls[c := FenceListed(y.calls[c].boot)], fenced := y.fenced + {y.calls[c].boot}), c);
    case FenceReads(c) =>
      assert CallAt(y, c);
      QuietForward(y, y.(calls := y.calls[c := FenceRead(y.calls[c].boot, y.sched.epoch)]), c);
    case FenceBumps(c) => FenceBumpsStep(y, c);
  }

  predicate IsExternal(step: Step) {
    || step.CommitBegins? || step.BrokerAnswers? || step.CommitFinishes? || step.BrokerReleases?
    || step.HandoffBegins? || step.ExecutorAnswers? || step.HandoffFinishes?
  }

  lemma ExternalStepKeeps(y: Sys, step: Step)
    requires Inv(y) && Enabled(y, step) && IsExternal(step)
    ensures Inv(Apply(y, step)) && Forward(y, Apply(y, step))
  {
    SamePlansEvolve(y.sched.plans);
    match step
    case CommitBegins(id) => if MayCommit(y.sched, id) { CommitBeginsStep(y, id); }
    case BrokerAnswers(c, a) => BrokerAnswersStep(y, c, a);
    case CommitFinishes(c) => CommitReturnsStep(y, c);
    case BrokerReleases(c) => ReleaseStep(y, c);
    case HandoffBegins(id) => if MayHandOff(y.sched, id) { HandoffBeginsStep(y, id); }
    case ExecutorAnswers(c, h) => ExecutorAnswersStep(y, c, h);
    case HandoffFinishes(c) => HandoffFinishesStep(y, c);
  }

  /** Every step keeps the invariant, and every step but a restore only moves forward. */
  lemma StepKeeps(y: Sys, step: Step)
    requires Inv(y) && Enabled(y, step)
    ensures Inv(Apply(y, step)) && (!step.DoRestore? ==> Forward(y, Apply(y, step)))
  {
    if IsDirect(step) {
      DirectStepKeeps(y, step);
    } else if IsExternal(step) {
      ExternalStepKeeps(y, step);
    } else if step.ScheduleBegins? || step.ScheduleFilters? || step.ScheduleStores? {
      ScheduleStepKeeps(y, step);
    } else {
      FenceStepKeeps(y, step);
    }
  }

  // --- runs -----------------------------------------------------------------------------------

  /** The invariant holds at every point of every run that starts with it; a fresh scheduler does. */
  lemma {:induction false} InvAlways(ys: seq<Sys>, steps: seq<Step>, k: nat)
    requires IsRun(ys, steps) && Inv(ys[0]) && k < |ys|
    ensures Inv(ys[k])
  {
    if k > 0 {
      InvAlways(ys, steps, k - 1);
      StepOfRun(ys, steps, k - 1);
    }
  }

  lemma StepOfRun(ys: seq<Sys>, steps: seq<Step>, k: nat)
    requires IsRun(ys, steps) && k < |steps| && Inv(ys[k])
    ensures Inv(ys[k + 1]) && (!steps[k].DoRestore? ==> Forward(ys[k], ys[k + 1]))
  {
    assert StepAt(ys, steps, k);
    StepKeeps(ys[k], steps[k]);
  }

  // Plan ids name the same plans throughout: no restore between two points.
  ghost predicate SameIncarnation(steps: seq<Step>, i: nat, j: nat) {
    forall k :: i <= k < j && k < |steps| ==> !steps[k].DoRestore?
  }

  /** Every plan of the earlier state is still stored, its content unchanged, and dead if it was. */
  ghost predicate StillAt(y: Sys, z: Sys, id: nat) {
    id in y.sched.plans ==>
      && id in z.sched.plans && SameOrigin(y.sched.plans[id], z.sched.plans[id])
      && (IsDead(y.sched.plans[id].state) ==> IsDead(z.sched.plans[id].state))
  }

  ghost predicate Later(y: Sys, z: Sys) {
    && (forall id {:trigger StillAt(y, z, id)} :: StillAt(y, z, id))
    && y.sched.epoch <= z.sched.epoch && y.sched.candidates.Keys <= z.sched.candidates.Keys
    && y.sched.cancelled <= z.sched.cancelled && y.fenced <= z.fenced && y.nextCall <= z.nextCall
  }

  lemma ForwardIsLater(x: Sys, y: Sys, z: Sys)
    requires Later(x, y) && Forward(y, z)
    ensures Later(x, z)
  {
    forall id ensures StillAt(x, z, id) {
      assert StillAt(x, y, id) && EvolvedAt(y.sched.plans, z.sched.plans, id);
    }
  }

  /** Death is permanent: along a run a stored plan stays stored, keeps its identity, and never leaves the dead
      states once it is in one. */
  lemma {:induction false} DeadAbsorbs(ys: seq<Sys>, steps: seq<Step>, i: nat, j: nat)
    requires IsRun(ys, steps) && Inv(ys[0]) && i <= j < |ys| && SameIncarnation(steps, i, j)
    ensures Later(ys[i], ys[j])
  {
    if i == j {
      forall id ensures StillAt(ys[i], ys[j], id) {}
    } else {
      DeadAbsorbs(ys, steps, i, j - 1);
      InvAlways(ys, steps, j - 1);
      StepOfRun(ys, steps, j - 1);
      ForwardIsLater(ys[i], ys[j - 1], ys[j]);
    }
  }

  lemma StaysDead(ys: seq<Sys>, steps: seq<Step>, i: nat, j: nat, id: nat)
    requires IsRun(ys, steps) && Inv(ys[0]) && i <= j < |ys| && SameIncarnation(steps, i, j)
    requires DeadIn(ys[i].sched, id)
    ensures DeadIn(ys[j].sched, id)
  {
    DeadAbsorbs(ys, steps, i, j);
    assert StillAt(ys[i], ys[j], id);
  }

  // --- what a step leaves alone ---------------------------------------------------------------

  /** Only a store files a plan or records an origin, only an epoch step moves the epoch or the authority, only a filter step adds to
      what a schedule call has found, and nothing changes the configuration. */
  ghost predicate Frame(y: Sys, step: Step, z: Sys) {
    && (!step.ScheduleStores? ==> z.sched.plans.Keys <= y.sched.plans.Keys && z.origin == y.origin)
    && (!step.DoSetEpoch? && !step.FenceBumps? ==> z.sched.epoch == y.sched.epoch && z.sched.authority == y.sched.authority)
    && (!step.ScheduleFilters? ==> forall c :: c in z.calls && z.calls[c].Filtering? ==>
          (step.ScheduleBegins? && z.calls[c].eligible == [] && z.calls[c].rejections == [])
          || (c in y.calls && z.calls[c] == y.calls[c]))
    && z.sched.config == y.sched.config
    && y.fenced <= z.fenced && y.nextCall <= z.nextCall
  }

  lemma StepFrame(y: Sys, step: Step)
    requires Enabled(y, step) && !step.DoRestore?
    ensures Frame(y, step, Apply(y, step))
  {
    if IsDirect(step) { DirectFrame(y, step); }
    else if IsExternal(step) { ExternalFrame(y, step); }
    else { OtherFrame(y, step); }
  }

  lemma DirectFrame(y: Sys, step: Step)
    requires Enabled(y, step) && IsDirect(step) && !step.DoRestore?
    ensures Frame(y, step, Apply(y, step))
  {
    match step
    case DoSetEpoch(e) => if SetEpoch(y.sched, e).Ok? { EpochFrame(y, e, SetEpoch(y.sched, e).value); }
    case DoIngest(c) => if Ingest(y.sched, c).Ok? { SchedFrame(y, step, Ingest(y.sched, c).value); }
    case DoCancel(r) => SchedFrame(y, step, Cancel(y.sched, r));
    case DoSupersede(o, n, reason, entry) => SchedFrame(y, step, Supersede(y.sched, o, n, reason, entry));
    case DoRevalidate(id, fp) =>
      if Revalidate(y.sched, id, fp).Ok? { SchedFrame(y, step, Revalidate(y.sched, id, fp).value.0); }
    case _ =>
  }

  lemma EpochFrame(y: Sys, e: nat, t: Sched)
    requires t.plans.Keys <= y.sched.plans.Keys && t.config == y.sched.config
    ensures Frame(y, DoSetEpoch(e), y.(sched := t))
  {}

  lemma SchedFrame(y: Sys, step: Step, t: Sched)
    requires t.plans.Keys <= y.sched.plans.Keys && t.epoch == y.sched.epoch && t.authority == y.sched.authority
    requires t.config == y.sched.config
    ensures Frame(y, step, y.(sched := t))
  {}

  lemma CommitFrame(y: Sys, c: nat)
    requires c in y.calls && y.calls[c].CommitAnswered?
    ensures Frame(y, CommitFinishes(c), CommitReturned(y, c))
  {}

  lemma HandoffFrame(y: Sys, c: nat)
    requires c in y.calls && y.calls[c].HandoffAnswered?
    ensures Frame(y, HandoffFinishes(c), HandoffReturned(y, c))
  {}

  lemma BeginFrame(y: Sys, id: nat)
    ensures MayCommit(y.sched, id) ==> Frame(y, CommitBegins(id), CommitOpened(y, id))
    ensures MayHandOff(y.sched, id) ==> Frame(y, HandoffBegins(id), HandoffOpened(y, id))
  {}

  lemma ExternalFrame(y: Sys, step: Step)
    requires Enabled(y, step) && IsExternal(step)
    ensures Frame(y, step, Apply(y, step))
  {
    match step
    case CommitBegins(id) => BeginFrame(y, id);
    case HandoffBegins(id) => BeginFrame(y, id);
    case CommitFinishes(c) => CommitFrame(y, c);
    case HandoffFinishes(c) => HandoffFrame(y, c);
    case _ =>
  }

  lemma OtherFrame(y: Sys, step: Step)
    requires Enabled(y, step) && !IsDirect(step) && !IsExternal(step)
    ensures Frame(y, step, Apply(y, step))
  {
    match step case ScheduleStores(_, _, _, _) => case FenceBumps(_) => case _ =>
  }
}
