/**
  What makes a state worth saving: every stored plan carries finite factor costs and names a candidate that is
  still known.  The first holds along any run that ingests only scorable candidates and recovers only finite
  costs; the second (`strict`) until a recovery clears the candidates.
*/
module Durability {
  import opened Types
  import opened Doubles
  import opened OrderedKeys
  import opened Eligibility
  import opened Ranking
  import opened Sequences
  import opened Selection
  import opened SchedulerModel
  import opened Snapshots
  import opened Invariants
  import opened System
  import opened SystemInvariant
  import opened Runs

  // --- the clauses ----------------------------------------------------------------------------

  predicate Usable(x: Candidate, known: set<nat>, strict: bool) {
    (strict ==> x.candidateId in known) && Scorable(x)
  }

  ghost predicate EvidenceAt(s: Sched, c: nat) {
    c in s.candidates ==> Scorable(s.candidates[c])
  }

  ghost predicate UsableAll(cs: seq<Candidate>, known: set<nat>, strict: bool) {
    forall x :: x in cs ==> Usable(x, known, strict)
  }

  ghost predicate GatheredAt(y: Sys, c: nat, strict: bool) {
    c in y.calls && y.calls[c].Filtering? ==>
      UsableAll(y.calls[c].pending, y.sched.candidates.Keys, strict) && UsableAll(y.calls[c].eligible, y.sched.candidates.Keys, strict)
  }

  ghost predicate DurablePlan(s: Sched, id: nat, strict: bool) {
    id in s.plans ==> (strict ==> s.plans[id].selectedCandidate in s.candidates) && FiniteFactors(s.plans[id].selectedFactors)
  }

  ghost predicate Durable(y: Sys, strict: bool) {
    && (forall c {:trigger EvidenceAt(y.sched, c)} :: EvidenceAt(y.sched, c))
    && (forall c {:trigger GatheredAt(y, c, strict)} :: GatheredAt(y, c, strict))
    && (forall id {:trigger DurablePlan(y.sched, id, strict)} :: DurablePlan(y.sched, id, strict))
  }

  // --- what a step leaves alone ---------------------------------------------------------------

  /** No candidate, no filtering pass and no plan is added. */
  ghost predicate Undisturbing(y: Sys, z: Sys) {
    && z.sched.candidates == y.sched.candidates && z.sched.plans.Keys <= y.sched.plans.Keys
    && forall c :: c in z.calls && z.calls[c].Filtering? ==> c in y.calls && z.calls[c] == y.calls[c]
  }

  lemma DirectUndisturbing(y: Sys, step: Step)
    requires Enabled(y, step) && IsDirect(step) && !step.DoRestore? && !step.DoIngest?
    ensures Undisturbing(y, Apply(y, step))
  {
    match step
    case DoSetEpoch(e) => if SetEpoch(y.sched, e).Ok? { SchedUndisturbing(y, SetEpoch(y.sched, e).value); }
    case DoCancel(r) => SchedUndisturbing(y, Cancel(y.sched, r));
    case DoSupersede(o, n, reason, entry) => SchedUndisturbing(y, Supersede(y.sched, o, n, reason, entry));
    case DoRevalidate(id, fp) =>
      if Revalidate(y.sched, id, fp).Ok? { SchedUndisturbing(y, Revalidate(y.sched, id, fp).value.0); }
    case _ =>
  }

  lemma SchedUndisturbing(y: Sys, t: Sched)
    requires t.candidates == y.sched.candidates && t.plans.Keys <= y.sched.plans.Keys
    ensures Undisturbing(y, y.(sched := t))
  {}

  lemma CommitUndisturbing(y: Sys, c: nat)
    requires c in y.calls && y.calls[c].CommitAnswered?
    ensures Undisturbing(y, CommitReturned(y, c))
  {}

  lemma HandoffUndisturbing(y: Sys, c: nat)
    requires c in y.calls && y.calls[c].HandoffAnswered?
    ensures Undisturbing(y, HandoffReturned(y, c))
  {}

  lemma BeginUndisturbing(y: Sys, id: nat)
    ensures MayCommit(y.sched, id) ==> Undisturbing(y, CommitOpened(y, id))
    ensures MayHandOff(y.sched, id) ==> Undisturbing(y, HandoffOpened(y, id))
  {}

  lemma ExternalUndisturbing(y: Sys, step: Step)
    requires Enabled(y, step) && IsExternal(step)
    ensures Undisturbing(y, Apply(y, step))
  {
    match step
    case CommitBegins(id) => BeginUndisturbing(y, id);
    case HandoffBegins(id) => BeginUndisturbing(y, id);
    case CommitFinishes(c) => CommitUndisturbing(y, c);
    case HandoffFinishes(c) => HandoffUndisturbing(y, c);
    case _ =>
  }

  lemma FenceUndisturbing(y: Sys, step: Step)
    requires Enabled(y, step) && (step.FenceMarks? || step.FenceLists? || step.FenceReads? || step.FenceBumps?)
    ensures Undisturbing(y, Apply(y, step))
  {
    match step case FenceBumps(_) => case _ =>
  }

  // --- each step ------------------------------------------------------------------------------

  lemma UndisturbedStays(y: Sys, z: Sys, strict: bool)
    requires Durable(y, strict) && Undisturbing(y, z) && Evolves(y.sched.plans, z.sched.plans)
    ensures Durable(z, strict)
  {
    forall c ensures EvidenceAt(z.sched, c) { assert EvidenceAt(y.sched, c); }
    forall c ensures GatheredAt(z, c, strict) { assert GatheredAt(y, c, strict); }
    forall id ensures DurablePlan(z.sched, id, strict) {
      assert DurablePlan(y.sched, id, strict) && EvolvedAt(y.sched.plans, z.sched.plans, id);
    }
  }

  lemma IngestDurable(y: Sys, x: Candidate, strict: bool)
    requires Durable(y, strict) && Ingest(y.sched, x).Ok? && Scorable(x)
    ensures Durable(y.(sched := Ingest(y.sched, x).value), strict)
  {
    var z := y.(sched := Ingest(y.sched, x).value);
    forall c ensures EvidenceAt(z.sched, c) { assert EvidenceAt(y.sched, c); }
    forall c ensures GatheredAt(z, c, strict) { assert GatheredAt(y, c, strict); }
    forall id ensures DurablePlan(z.sched, id, strict) { assert DurablePlan(y.sched, id, strict); }
  }

  lemma OpenDurable(y: Sys, r: SchedulingRequest, strict: bool)
    requires Durable(y, strict) && SchedOk(y.sched)
    ensures Durable(Opened(y, Filtering(r, InOrder(y.sched.candidates), [], [])), strict)
  {
    var z, cs := Opened(y, Filtering(r, InOrder(y.sched.candidates), [], [])), InOrder(y.sched.candidates);
    InOrderLists(y.sched.candidates);
    forall x | x in cs ensures Usable(x, y.sched.candidates.Keys, strict) {
      var i :| 0 <= i < |cs| && cs[i] == x;
      var k := Ascending(y.sched.candidates.Keys, Bound(y.sched.candidates.Keys))[i];
      assert k in Ascending(y.sched.candidates.Keys, Bound(y.sched.candidates.Keys));
      assert CandidateAt(y.sched, k) && EvidenceAt(y.sched, k);
    }
    forall c ensures EvidenceAt(z.sched, c) { assert EvidenceAt(y.sched, c); }
    forall c ensures GatheredAt(z, c, strict) { assert GatheredAt(y, c, strict); }
    forall id ensures DurablePlan(z.sched, id, strict) { assert DurablePlan(y.sched, id, strict); }
  }

  lemma FilterDurable(y: Sys, c: nat, gates: Gates, why: Text, strict: bool)
    requires Durable(y, strict) && Enabled(y, ScheduleFilters(c, gates, why))
    ensures Durable(y.(calls := y.calls[c := Filtered(y.calls[c], gates, why)]), strict)
  {
    var call := y.calls[c];
    var z := y.(calls := y.calls[c := Filtered(call, gates, why)]);
    assert GatheredAt(y, c, strict);
    assert call.pending[0] in call.pending && forall x :: x in call.pending[1..] ==> x in call.pending;
    forall d ensures EvidenceAt(z.sched, d) { assert EvidenceAt(y.sched, d); }
    forall d ensures GatheredAt(z, d, strict) { assert GatheredAt(y, d, strict); }
    forall id ensures DurablePlan(z.sched, id, strict) { assert DurablePlan(y.sched, id, strict); }
  }

  /** A stored plan's factor costs are finite exactly when its winner's evidence gives it a score. */
  lemma StoredFiniteIff(d: DemandProfile, w: Weights, winner: Candidate, fs: seq<RankFactor>)
    requires StoredFactors(d, w, winner, fs)
    ensures FiniteFactors(fs) <==> Scorable(winner)
  {
    var ranked := Rank(d, winner, w).factors;
    RankFactors(d, winner, w);
    forall i | 0 <= i < |fs| ensures IsFinite(fs[i].value) <==> InUnit(ranked[i].value) {
      assert ranked[i].value.NaN? || InUnit(ranked[i].value);
    }
  }

  // The winner of a ranking is one of the survivors it ranked.
  lemma WinnerSurvived(d: DemandProfile, w: Weights, eligible: seq<Candidate>, ranked: seq<Candidate>)
    requires IsRanking(d, w, eligible, ranked) && ranked != []
    ensures ranked[0] in eligible
  {
    SameMembers(ranked, eligible, ranked[0]);
  }

  lemma StoreDurable(y: Sys, c: nat, v: Verdict, strict: bool)
    requires Durable(y, strict) && SchedOk(y.sched) && c in y.calls && y.calls[c].Filtering?
    requires v.ranked != [] ==> v.ranked[0] in y.calls[c].eligible && (Scorable(v.ranked[0]) ==> FiniteFactors(v.factors))
    ensures Durable(Stored(y, c, v), strict)
  {
    var z := Stored(y, c, v);
    assert GatheredAt(y, c, strict);
    forall d ensures EvidenceAt(z.sched, d) { assert EvidenceAt(y.sched, d); }
    forall d ensures GatheredAt(z, d, strict) { assert GatheredAt(y, d, strict); }
    forall id ensures DurablePlan(z.sched, id, strict) {
      assert DurablePlan(y.sched, id, strict);
      if v.ranked != [] && id == y.sched.nextPlanId { assert z.sched.plans[id] == NewPlan(y.sched, y.calls[c].request, v); }
    }
  }

  lemma ScheduleDurable(y: Sys, step: Step, strict: bool)
    requires Durable(y, strict) && Inv(y) && Enabled(y, step) && (step.ScheduleBegins? || step.ScheduleFilters? || step.ScheduleStores?)
    ensures Durable(Apply(y, step), strict)
  {
    match step
    case ScheduleBegins(r) => OpenDurable(y, r, strict);
    case ScheduleFilters(c, gates, why) => FilterDurable(y, c, gates, why, strict);
    case ScheduleStores(c, ranked, fs, dependency) =>
      var d, w, call := y.calls[c].request.demand, y.sched.config.weights, y.calls[c];
      if ranked != [] {
        WinnerSurvived(d, w, call.eligible, ranked);
        StoredFiniteIff(d, w, ranked[0], fs);
      }
      StoreDurable(y, c, VerdictOf(call, ranked, fs, dependency), strict);
  }

  lemma RecoveryDurable(y: Sys, p: Persisted)
    requires SnapshotOk(p) && FinitePlans(p) && y.calls == map[]
    ensures Durable(Recovered(y, p), false)
  {
    var z := Recovered(y, p);
    RestoreRecovers(y.sched, p);
    PlanMapHolds(p.plans);
    forall c ensures EvidenceAt(z.sched, c) && GatheredAt(z, c, false) {}
    forall id ensures DurablePlan(z.sched, id, false) {
      if id in z.sched.plans { var i :| 0 <= i < |p.plans| && p.plans[i].planId == id; }
    }
  }

  ghost predicate FinitePlans(p: Persisted) {
    forall i :: 0 <= i < |p.plans| ==> FiniteFactors(p.plans[i].selectedFactors)
  }

  /** Only evidence whose costs are numbers comes in, from workers or from a saved snapshot. */
  ghost predicate BringsScorable(step: Step) {
    && (step.DoIngest? ==> Scorable(step.candidate))
    && (step.DoRestore? ==> FinitePlans(step.snapshot))
  }

  /** A step that brings in nothing but such evidence keeps the state durable; strictly, if it is not a
      recovery. */
  lemma StepDurable(y: Sys, step: Step, strict: bool)
    requires Inv(y) && Durable(y, strict) && Enabled(y, step) && BringsScorable(step) && (strict ==> !step.DoRestore?)
    ensures Durable(Apply(y, step), strict)
  {
    if step.DoRestore? {
      RecoveryDurable(y, step.snapshot);
    } else if step.ScheduleBegins? || step.ScheduleFilters? || step.ScheduleStores? {
      ScheduleDurable(y, step, strict);
    } else if step.DoIngest? {
      if Ingest(y.sched, step.candidate).Ok? { IngestDurable(y, step.candidate, strict); }
    } else {
      StepKeeps(y, step);
      if IsDirect(step) { DirectUndisturbing(y, step); }
      else if IsExternal(step) { ExternalUndisturbing(y, step); }
      else { FenceUndisturbing(y, step); }
      UndisturbedStays(y, Apply(y, step), strict);
    }
  }

  lemma DurableNext(ys: seq<Sys>, steps: seq<Step>, k: nat, strict: bool)
    requires IsRun(ys, steps) && k < |steps| && Inv(ys[k]) && Durable(ys[k], strict)
    requires BringsScorable(steps[k]) && (strict ==> !steps[k].DoRestore?)
    ensures Durable(ys[k + 1], strict)
  {
    assert StepAt(ys, steps, k);
    StepDurable(ys[k], steps[k], strict);
  }

  ghost predicate OnlyScorable(steps: seq<Step>) {
    forall i: nat {:trigger BringsScorable(steps[i])} :: i < |steps| ==> BringsScorable(steps[i])
  }

  lemma StepBrings(steps: seq<Step>, k: nat, strict: bool)
    requires OnlyScorable(steps) && k < |steps| && (strict ==> SameIncarnation(steps, 0, |steps|))
    ensures BringsScorable(steps[k]) && (strict ==> !steps[k].DoRestore?)
  {}

  lemma DurableHop(ys: seq<Sys>, steps: seq<Step>, k: nat, strict: bool)
    requires IsRun(ys, steps) && Inv(ys[0]) && k < |steps| && Durable(ys[k], strict)
    requires OnlyScorable(steps) && (strict ==> SameIncarnation(steps, 0, |steps|))
    ensures Durable(ys[k + 1], strict)
  {
    InvAlways(ys, steps, k);
    StepBrings(steps, k, strict);
    DurableNext(ys, steps, k, strict);
  }

  lemma {:induction false} DurableAlways(ys: seq<Sys>, steps: seq<Step>, k: nat, strict: bool)
    requires IsRun(ys, steps) && Inv(ys[0]) && Durable(ys[0], strict) && k < |ys|
    requires OnlyScorable(steps) && (strict ==> SameIncarnation(steps, 0, |steps|))
    ensures Durable(ys[k], strict)
  {
    if k > 0 {
      var j := k - 1;
      DurableAlways(ys, steps, j, strict);
      DurableHop(ys, steps, j, strict);
      assert ys[k] == ys[j + 1];
    }
  }

  lemma StartDurable(config: SchedulerModel.Config, authority: nat, strict: bool)
    ensures Durable(Start(config, authority), strict)
  {
    var y := Start(config, authority);
    forall c ensures EvidenceAt(y.sched, c) && GatheredAt(y, c, strict) && DurablePlan(y.sched, c, strict) {}
  }
}
