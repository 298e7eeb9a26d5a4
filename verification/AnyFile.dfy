/**
  Recovery from a file nobody vouches for.  The loader checks a snapshot's ids, demands, costs and evidence, but
  not its histories, so a file it accepts need not be one a scheduler wrote.  Such a file cannot make a recovered
  plan launch, which needs none of the system invariant; whether it restores the invariant depends on its histories
  alone.
*/
module AnyFile {
  import opened Types
  import opened Lifecycle
  import opened OrderedKeys
  import opened SchedulerModel
  import opened Wire
  import opened Records
  import opened Snapshots
  import opened Invariants
  import opened System
  import opened Runs
  import opened Safety
  import opened Persistence
  import opened SnapshotChecks
  import opened SavedFiles
  import opened Sizes

  // --- a dead plan needs no invariant to stay dead --------------------------------------------

  /** Dead, and filed below the counter. */
  ghost predicate Gone(s: Sched, id: nat) {
    id in s.plans && IsDead(s.plans[id].state) && id < s.nextPlanId
  }

  lemma SweepKeepsGone(s: Sched, sw: Sweep, id: nat)
    requires Gone(s, id)
    ensures Gone(Sweeping(s, sw), id)
  {
    SweptAt(sw, s.plans, s.nextEventOrdinal, id);
  }

  lemma EpochKeepsGone(s: Sched, e: nat, id: nat)
    requires Gone(s, id) && SetEpoch(s, e).Ok?
    ensures Gone(SetEpoch(s, e).value, id)
  {
    if e != s.epoch { SweepKeepsGone(s.(epoch := e, authority := s.authority + 1), Requeue, id); }
  }

  lemma SupersedeKeepsGone(s: Sched, o: nat, n: nat, reason: Text, entry: Text, id: nat)
    requires Gone(s, id)
    ensures Gone(Supersede(s, o, n, reason, entry), id)
  {
    SweepKeepsGone(s, Superseding(o, if n in s.latest then s.latest[n] else 0, reason), id);
  }

  lemma RevalidateKeepsGone(s: Sched, p: nat, fp: GenerationFingerprint, id: nat)
    requires Gone(s, id) && Revalidate(s, p, fp).Ok?
    ensures Gone(Revalidate(s, p, fp).value.0, id)
  {}

  lemma CommitKeepsGone(y: Sys, c: nat, id: nat)
    requires Gone(y.sched, id) && c in y.calls && y.calls[c].CommitAnswered?
    ensures Gone(CommitReturned(y, c).sched, id)
  {}

  lemma HandoffKeepsGone(y: Sys, c: nat, id: nat)
    requires Gone(y.sched, id) && c in y.calls && y.calls[c].HandoffAnswered?
    ensures Gone(HandoffReturned(y, c).sched, id)
  {}

  lemma BeginKeepsGone(s: Sched, p: nat, id: nat)
    requires Gone(s, id)
    ensures MayCommit(s, p) ==> Gone(BeginCommit(s, p).0, id)
    ensures MayHandOff(s, p) ==> Gone(BeginHandoff(s, p).0, id)
  {}

  lemma DirectKeepsGone(y: Sys, step: Step, id: nat)
    requires Enabled(y, step) && IsDirect(step) && !step.DoRestore? && Gone(y.sched, id)
    ensures Gone(Apply(y, step).sched, id)
  {
    match step
    case DoSetEpoch(e) => if SetEpoch(y.sched, e).Ok? { EpochKeepsGone(y.sched, e, id); }
    case DoCancel(r) => SweepKeepsGone(y.sched.(cancelled := y.sched.cancelled + {r}), Cancelling(r), id);
    case DoSupersede(o, n, reason, entry) => SupersedeKeepsGone(y.sched, o, n, reason, entry, id);
    case DoRevalidate(p, fp) => if Revalidate(y.sched, p, fp).Ok? { RevalidateKeepsGone(y.sched, p, fp, id); }
    case _ =>
  }

  lemma ExternalKeepsGone(y: Sys, step: Step, id: nat)
    requires Enabled(y, step) && IsExternal(step) && Gone(y.sched, id)
    ensures Gone(Apply(y, step).sched, id)
  {
    match step
    case CommitBegins(p) => BeginKeepsGone(y.sched, p, id);
    case HandoffBegins(p) => BeginKeepsGone(y.sched, p, id);
    case CommitFinishes(c) => CommitKeepsGone(y, c, id);
    case HandoffFinishes(c) => HandoffKeepsGone(y, c, id);
    case _ =>
  }

  lemma StoreKeepsGone(s: Sched, r: SchedulingRequest, v: Verdict, id: nat)
    requires Gone(s, id)
    ensures Gone(Store(s, r, v), id)
  {}

  lemma BumpKeepsGone(s: Sched, seen: nat, id: nat)
    requires Gone(s, id)
    ensures Gone(Bumped(s, seen), id)
  {
    if SetEpoch(s, seen + 1).Ok? { EpochKeepsGone(s, seen + 1, id); }
  }

  lemma OtherKeepsGone(y: Sys, step: Step, id: nat)
    requires Enabled(y, step) && !IsDirect(step) && !IsExternal(step) && Gone(y.sched, id)
    ensures Gone(Apply(y, step).sched, id)
  {
    match step
    case ScheduleStores(c, ranked, fs, dependency) =>
      StoreKeepsGone(y.sched, y.calls[c].request, VerdictOf(y.calls[c], ranked, fs, dependency), id);
    case FenceBumps(c) => BumpKeepsGone(y.sched, y.calls[c].seen, id);
    case _ =>
  }

  lemma GoneNext(ys: seq<Sys>, steps: seq<Step>, k: nat, id: nat)
    requires IsRun(ys, steps) && k < |steps| && !steps[k].DoRestore? && Gone(ys[k].sched, id)
    ensures Gone(ys[k + 1].sched, id)
  {
    assert StepAt(ys, steps, k);
    if IsDirect(steps[k]) { DirectKeepsGone(ys[k], steps[k], id); }
    else if IsExternal(steps[k]) { ExternalKeepsGone(ys[k], steps[k], id); }
    else { OtherKeepsGone(ys[k], steps[k], id); }
  }

  lemma {:induction false} GoneAlways(ys: seq<Sys>, steps: seq<Step>, k: nat, id: nat)
    requires IsRun(ys, steps) && k < |ys| && SameIncarnation(steps, 0, k) && Gone(ys[0].sched, id)
    ensures Gone(ys[k].sched, id)
  {
    if k > 0 {
      GoneAlways(ys, steps, k - 1, id);
      GoneNext(ys, steps, k - 1, id);
    }
  }

  lemma GoneNeverLaunches(y: Sys, step: Step, id: nat)
    requires Gone(y.sched, id)
    ensures !Launches(y, step, id)
  {}

  // --- restoring whatever loads ---------------------------------------------------------------

  lemma LoadedIdsBelow(f: seq<Byte>)
    requires Load(f).Ok?
    ensures PlanIdsBelow(Load(f).value.nextPlanId, Load(f).value.plans)
  {
    LoadSound(f);
    IdsBelowOf(ParseSnapshot(Unwrap(f).value).value, Load(f).value.formatVersion);
  }

  lemma IdsBelowOf(v: Value, version: nat)
    requires Shaped(SnapshotFields, v) && Passes(Integrity, SnapshotFields, v)
    ensures PlanIdsBelow(SnapshotOf(v, version).nextPlanId, SnapshotOf(v, version).plans)
  {
    var body := v.items[0];
    assert SnapshotFields.fields[0] == BodySchema;
    assert Shaped(BodySchema, body) && Passes(Integrity, BodySchema, body);
    assert PlanIdRule(body).None? && At(v, 0) == body;
  }

  lemma RestoredIsGone(s: Sched, p: Persisted, id: nat)
    requires PlanIdsBelow(p.nextPlanId, p.plans) && id in Restore(s, p).plans
    ensures Gone(Restore(s, p), id)
  {
    SweptAt(Requeue, PlanMap(p.plans), p.nextEventOrdinal, id);
    PlanMapKeys(p.plans, id);
  }

  /** Whatever file the loader accepts, no plan that a recovery from it brings back is ever launched. */
  lemma AcceptedFileLaunchesNothing(f: seq<Byte>, s: Sched, ys: seq<Sys>, steps: seq<Step>, k: nat, id: nat)
    requires Load(f).Ok? && IsRun(ys, steps) && ys[0].sched == Restore(s, Load(f).value)
    requires k < |steps| && SameIncarnation(steps, 0, k) && id in ys[0].sched.plans
    ensures !Launches(ys[k], steps[k], id)
  {
    LoadedIdsBelow(f);
    RestoredIsGone(s, Load(f).value, id);
    GoneAlways(ys, steps, k, id);
    GoneNeverLaunches(ys[k], steps[k], id);
  }

  // --- exactly when the restored state meets the invariant ------------------------------------

  // The plans below id that recovery draws an ordinal for: those that are not terminal.
  ghost function Waiting(p: Persisted, id: nat): set<nat> {
    set q | q in p.plans && !IsTerminal(q.state) && q.planId < id :: q.planId
  }

  /** The event counter when recovery, walking the plans in id order, gets to id. */
  ghost function Drawn(p: Persisted, id: nat): nat {
    p.nextEventOrdinal + |Waiting(p, id)|
  }

  lemma WaitingNext(p: Persisted, id: nat)
    requires UniquePlans(p.plans)
    ensures var plans := PlanMap(p.plans);
      Waiting(p, id + 1) == Waiting(p, id) + if id in plans && Selects(Requeue, plans[id]) then {id} else {}
  {
    PlanMapHolds(p.plans);
    var plans, some := PlanMap(p.plans), Waiting(p, id + 1);
    forall k ensures k in some <==> k in Waiting(p, id) || (k == id && id in plans && Selects(Requeue, plans[id])) {
      if k == id && id in plans {
        var i :| 0 <= i < |p.plans| && p.plans[i].planId == id;
        assert p.plans[i] in p.plans;
      }
    }
  }

  lemma {:induction false} DrawnIs(p: Persisted, id: nat)
    requires UniquePlans(p.plans)
    ensures OrdinalAt(Requeue, PlanMap(p.plans), id, p.nextEventOrdinal) == Drawn(p, id)
  {
    if id == 0 {
      assert Waiting(p, 0) == {};
    } else {
      DrawnIs(p, id - 1);
      WaitingNext(p, id - 1);
    }
  }

  // The plan's state does not change, so it records nothing.
  predicate Stays(q: PlacementPlan) {
    IsTerminal(q.state) || q.state == RevalidationRequired
  }

  predicate Recorded(q: PlacementPlan) {
    !Stays(q) && |q.stateHistory| < MAX_HISTORY
  }

  /** A history that is in order once recovery has passed: in order as it is, below the counter that recovery leaves,
      when the plan's state does not change; otherwise at most full, increasing, and below the ordinal that is
      recorded after it. */
  ghost predicate HistoryRecovers(p: Persisted, q: PlacementPlan) {
    var h, end := q.stateHistory, Drawn(p, p.nextPlanId);
    if Stays(q) then HistoryOk(h, q.state, end)
    else |h| <= MAX_HISTORY && Increasing(h) && Below(h, if |h| < MAX_HISTORY then Drawn(p, q.planId) else end)
  }

  ghost predicate Misses(h: seq<HistoryEntry>, o: nat) {
    forall i :: 0 <= i < |h| ==> h[i].ordinal != o
  }

  /** Neither history holds an ordinal of the other, nor the one recorded for it. */
  ghost predicate OrdinalsApart(p: Persisted, q: PlacementPlan, r: PlacementPlan) {
    Apart(q.stateHistory, r.stateHistory) && (Recorded(q) ==> Misses(r.stateHistory, Drawn(p, q.planId)))
  }

  ghost predicate HistoriesRecover(p: Persisted) {
    && (forall i :: 0 <= i < |p.plans| ==> HistoryRecovers(p, p.plans[i]))
    && (forall i, j :: 0 <= i < |p.plans| && 0 <= j < |p.plans| && i != j ==> OrdinalsApart(p, p.plans[i], p.plans[j]))
  }

  // The plan as recovery leaves it.
  function Requeued(q: PlacementPlan, o: nat): PlacementPlan {
    if IsTerminal(q.state) then q else Force(q, RevalidationRequired, o)
  }

  lemma RequeuedHistory(q: PlacementPlan, o: nat, end: nat)
    requires !Stays(q) ==> o < end
    ensures HistoryOk(Requeued(q, o).stateHistory, Requeued(q, o).state, end) <==>
      if Stays(q) then HistoryOk(q.stateHistory, q.state, end)
      else |q.stateHistory| <= MAX_HISTORY && Increasing(q.stateHistory)
           && Below(q.stateHistory, if |q.stateHistory| < MAX_HISTORY then o else end)
  {
    var h, k := q.stateHistory, Requeued(q, o).stateHistory;
    if Recorded(q) { RecordedHistory(h, HistoryEntry(RevalidationRequired, o), end); }
  }

  lemma RecordedHistory(h: seq<HistoryEntry>, e: HistoryEntry, end: nat)
    requires |h| < MAX_HISTORY && e.ordinal < end
    ensures HistoryOk(h + [e], e.state, end) <==> Increasing(h) && Below(h, e.ordinal)
  {
    var k := h + [e];
    assert forall i :: 0 <= i < |h| ==> k[i] == h[i];
    assert k[|h|] == e;
  }

  lemma RequeuedApart(q: PlacementPlan, o: nat, r: PlacementPlan, u: nat)
    requires Recorded(q) && Recorded(r) ==> o != u
    ensures Apart(Requeued(q, o).stateHistory, Requeued(r, u).stateHistory) <==>
      && Apart(q.stateHistory, r.stateHistory)
      && (Recorded(q) ==> Misses(r.stateHistory, o)) && (Recorded(r) ==> Misses(q.stateHistory, u))
  {
    var e, f := HistoryEntry(RevalidationRequired, o), HistoryEntry(RevalidationRequired, u);
    AppendApart(q.stateHistory, Recorded(q), e, r.stateHistory, Recorded(r), f);
  }

  lemma AppendApart(h: seq<HistoryEntry>, x: bool, e: HistoryEntry, k: seq<HistoryEntry>, y: bool, f: HistoryEntry)
    requires x && y ==> e.ordinal != f.ordinal
    ensures Apart(if x then h + [e] else h, if y then k + [f] else k) <==>
      Apart(h, k) && (x ==> Misses(k, e.ordinal)) && (y ==> Misses(h, f.ordinal))
  {
    var g, l := if x then h + [e] else h, if y then k + [f] else k;
    assert forall i :: 0 <= i < |h| ==> g[i] == h[i];
    assert forall i :: 0 <= i < |k| ==> l[i] == k[i];
    assert x ==> g[|h|] == e;
    assert y ==> l[|k|] == f;
  }

  lemma RestoredPlan(s: Sched, p: Persisted, i: nat)
    requires IntegrityOk(p) && i < |p.plans|
    ensures var q := p.plans[i];
      && q.planId in Restore(s, p).plans && Restore(s, p).plans[q.planId] == Requeued(q, Drawn(p, q.planId))
      && (!Stays(q) ==> Drawn(p, q.planId) < Drawn(p, p.nextPlanId))
  {
    var q := p.plans[i];
    PlanMapHolds(p.plans);
    DrawnIs(p, q.planId);
    DrawnIs(p, p.nextPlanId);
    OrdinalsClimb(Requeue, PlanMap(p.plans), q.planId, p.nextPlanId, p.nextEventOrdinal);
  }

  lemma RestoredCounter(s: Sched, p: Persisted)
    requires IntegrityOk(p)
    ensures Restore(s, p).nextEventOrdinal == Drawn(p, p.nextPlanId)
  {
    var plans := PlanMap(p.plans);
    PlanMapHolds(p.plans);
    forall k | k in plans ensures k < p.nextPlanId { PlanMapKeys(p.plans, k); }
    BoundLeast(plans.Keys, p.nextPlanId);
    OrdinalStable(Requeue, plans, Bound(plans.Keys), p.nextPlanId, p.nextEventOrdinal);
    DrawnIs(p, p.nextPlanId);
  }

  // Two plans that both record draw different ordinals.
  lemma DrawnApart(p: Persisted, i: nat, j: nat)
    requires IntegrityOk(p) && i < |p.plans| && j < |p.plans| && i != j && Recorded(p.plans[i]) && Recorded(p.plans[j])
    ensures Drawn(p, p.plans[i].planId) != Drawn(p, p.plans[j].planId)
  {
    var a, b, plans := p.plans[i].planId, p.plans[j].planId, PlanMap(p.plans);
    PlanMapHolds(p.plans);
    DrawnIs(p, a);
    DrawnIs(p, b);
    if a < b {
      assert p.plans[i].planId != p.plans[j].planId;
      OrdinalsClimb(Requeue, plans, a, b, p.nextEventOrdinal);
    } else {
      assert p.plans[i].planId != p.plans[j].planId;
      OrdinalsClimb(Requeue, plans, b, a, p.nextEventOrdinal);
    }
  }

  lemma RequeuedKeeps(q: PlacementPlan, o: nat)
    ensures var r := Requeued(q, o);
      IsDead(r.state) && !NeedsEvidence(r.state) && r.planId == q.planId && r.requestId == q.requestId
  {}

  lemma RestoredShapeIff(s: Sched, p: Persisted, i: nat)
    requires IntegrityOk(p) && i < |p.plans|
    ensures PlanAt(Restore(s, p), p.plans[i].planId) <==> HistoryRecovers(p, p.plans[i])
  {
    var q, t := p.plans[i], Restore(s, p);
    var r := Requeued(q, Drawn(p, q.planId));
    RestoredPlan(s, p, i);
    RestoredCounter(s, p);
    RequeuedHistory(q, Drawn(p, q.planId), Drawn(p, p.nextPlanId));
    RequeuedKeeps(q, Drawn(p, q.planId));
    LatestMapIsMax(p.plans);
    DeadPlanAt(t, r, q.planId);
  }

  lemma DeadPlanAt(t: Sched, r: PlacementPlan, id: nat)
    requires id in t.plans && t.plans[id] == r && r.planId == id < t.nextPlanId && IsDead(r.state)
    requires r.requestId in t.latest && id <= t.latest[r.requestId]
    ensures PlanAt(t, id) <==> HistoryOk(r.stateHistory, r.state, t.nextEventOrdinal)
  {}

  lemma RestoredApartIff(s: Sched, p: Persisted, i: nat, j: nat)
    requires IntegrityOk(p) && i < |p.plans| && j < |p.plans| && i != j
    ensures ApartAt(Restore(s, p).plans, p.plans[i].planId, p.plans[j].planId) <==>
      OrdinalsApart(p, p.plans[i], p.plans[j]) && OrdinalsApart(p, p.plans[j], p.plans[i])
  {
    var q, r := p.plans[i], p.plans[j];
    assert q.planId != r.planId;
    RestoredPlan(s, p, i);
    RestoredPlan(s, p, j);
    if Recorded(q) && Recorded(r) { DrawnApart(p, i, j); }
    RequeuedApart(q, Drawn(p, q.planId), r, Drawn(p, r.planId));
  }

  lemma RestoredRest(s: Sched, p: Persisted)
    requires IntegrityOk(p)
    ensures var t := Restore(s, p);
      && t.epoch > 0 && t.nextPlanId > 0 && LatestIndexes(t)
      && (forall r {:trigger RequestAt(t, r)} :: RequestAt(t, r)) && (forall c {:trigger CandidateAt(t, c)} :: CandidateAt(t, c))
  {
    var t := Restore(s, p);
    RequestMapHolds(p.requests);
    forall r ensures RequestAt(t, r) {
      if r in t.requests { var i :| 0 <= i < |p.requests| && p.requests[i].requestId == r; }
    }
    forall c ensures CandidateAt(t, c) {}
    forall r ensures LatestAt(t, r) { RestoredLatest(s, p, r); }
  }

  lemma LatestPlan(ps: seq<PlacementPlan>, r: nat) returns (i: nat)
    requires r in LatestMap(ps)
    ensures i < |ps| && ps[i].requestId == r && ps[i].planId == LatestMap(ps)[r]
  {
    LatestMapIsMax(ps);
    i :| 0 <= i < |ps| && ps[i].requestId == r && ps[i].planId == LatestMap(ps)[r];
  }

  lemma RestoredLatest(s: Sched, p: Persisted, r: nat)
    requires IntegrityOk(p)
    ensures LatestAt(Restore(s, p), r)
  {
    if r in LatestMap(p.plans) {
      var i := LatestPlan(p.plans, r);
      RestoredPlan(s, p, i);
      RequeuedKeeps(p.plans[i], Drawn(p, p.plans[i].planId));
    }
  }

  lemma TidyRestores(s: Sched, p: Persisted)
    requires IntegrityOk(p) && HistoriesRecover(p)
    ensures SchedOk(Restore(s, p))
  {
    var t := Restore(s, p);
    RestoredRest(s, p);
    PlanMapHolds(p.plans);
    forall id ensures PlanAt(t, id) {
      if id in t.plans {
        var i :| 0 <= i < |p.plans| && p.plans[i].planId == id;
        RestoredShapeIff(s, p, i);
      }
    }
    forall a, b ensures ApartAt(t.plans, a, b) {
      if a in t.plans && b in t.plans && a != b {
        var i :| 0 <= i < |p.plans| && p.plans[i].planId == a;
        var j :| 0 <= j < |p.plans| && p.plans[j].planId == b;
        RestoredApartIff(s, p, i, j);
      }
    }
  }

  /** A snapshot that passes every check of the loader restores to a state that meets the invariant if and only if
      its histories recover. */
  lemma RestoreOkIff(s: Sched, p: Persisted)
    requires IntegrityOk(p)
    ensures SchedOk(Restore(s, p)) <==> HistoriesRecover(p)
  {
    var t := Restore(s, p);
    if HistoriesRecover(p) {
      TidyRestores(s, p);
    } else if SchedOk(t) {
      forall i | 0 <= i < |p.plans| ensures HistoryRecovers(p, p.plans[i]) {
        assert PlanAt(t, p.plans[i].planId);
        RestoredShapeIff(s, p, i);
      }
      forall i, j | 0 <= i < |p.plans| && 0 <= j < |p.plans| && i != j ensures OrdinalsApart(p, p.plans[i], p.plans[j]) {
        assert ApartAt(t.plans, p.plans[i].planId, p.plans[j].planId);
        RestoredApartIff(s, p, i, j);
      }
      assert false;
    }
  }

  // --- a file that breaks it ------------------------------------------------------------------

  // One superseded plan with no history.
  const UntidyPlan: PlacementPlan := PlacementPlan(
    1, 1, 1, 1, 5, 1, [], [], [], 1, [], 0, [], false, [], [],
    GenerationFingerprint(1, 1, 1, 1, 1, 1, 1, 1, 1, 1, 1, 1), 1, 1, Superseded, [], 1, 0, [], false)

  const UntidySnapshot: Persisted := Persisted(
    VERSION, 1, 1, 2, 1, 1, 0, [], [UntidyPlan], [CandidateIdentity(5, 1, 1, 1, 1, 1)], [], {})

  lemma UntidyIsSmall()
    ensures SnapshotSmall(UntidySnapshot)
  {
    assert PlanSmall(UntidyPlan) && IdentitySmall(UntidySnapshot.candidateIdentities[0]);
  }

  lemma UntidyPasses()
    ensures IntegrityOk(UntidySnapshot)
  {
    assert UntidySnapshot.candidateIdentities[0].candidateId == UntidyPlan.selectedCandidate;
    assert FiniteFactors(UntidyPlan.selectedFactors);
  }

  lemma UntidyLoads()
    ensures Load(Save(UntidySnapshot, [])) == Ok(UntidySnapshot)
  {
    UntidyIsSmall();
    UntidyPasses();
    SnapshotFine(UntidySnapshot);
    LoadOfSave(UntidySnapshot, []);
    assert AllSent(UntidySnapshot.requests) == UntidySnapshot.requests;
  }

  lemma UntidyDoesNotRecover()
    ensures !HistoriesRecover(UntidySnapshot)
  {
    var p := UntidySnapshot;
    assert !HistoryRecovers(p, p.plans[0]);
  }

  /** The loader accepts a file whose restore breaks the invariant. */
  lemma AcceptedFileBreaksHistories(s: Sched)
    ensures Load(Save(UntidySnapshot, [])).Ok?
    ensures !SchedOk(Restore(s, Load(Save(UntidySnapshot, [])).value))
  {
    UntidyLoads();
    UntidyPasses();
    UntidyDoesNotRecover();
    RestoreOkIff(s, UntidySnapshot);
  }
}
