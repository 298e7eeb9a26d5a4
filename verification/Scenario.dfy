/** A run from a fresh scheduler to a committed plan, for every request with a valid demand, and the denied
    handoff that reopens a terminal plan from there. */
module Scenario {
  import opened Types
  import opened Doubles
  import opened Demand
  import opened Eligibility
  import opened Lifecycle
  import opened OrderedKeys
  import opened Ranking
  import opened Sorting
  import opened Selection
  import opened SchedulerModel
  import opened Snapshots
  import opened Invariants
  import opened System
  import opened SystemInvariant

  // --- reachable states -----------------------------------------------------------------------

  ghost predicate Reaches(y: Sys, z: Sys) {
    exists ys, steps {:trigger IsRun(ys, steps)} :: IsRun(ys, steps) && ys[0] == y && ys[|steps|] == z
  }

  lemma ReachesSelf(y: Sys)
    ensures Reaches(y, y)
  {
    assert IsRun([y], []);
  }

  lemma RunGrows(ys: seq<Sys>, steps: seq<Step>, step: Step)
    requires IsRun(ys, steps) && Enabled(ys[|steps|], step)
    ensures IsRun(ys + [Apply(ys[|steps|], step)], steps + [step])
  {
    var n, zs, more := |steps|, ys + [Apply(ys[|steps|], step)], steps + [step];
    forall i: nat | i < |more| ensures StepAt(zs, more, i) {
      if i < n { assert StepAt(ys, steps, i); }
    }
  }

  lemma ReachesNext(y: Sys, z: Sys, step: Step)
    requires Reaches(y, z) && Enabled(z, step)
    ensures Reaches(y, Apply(z, step))
  {
    var ys, steps :| IsRun(ys, steps) && ys[0] == y && ys[|steps|] == z;
    RunGrows(ys, steps, step);
    var zs, more := ys + [Apply(z, step)], steps + [step];
    assert IsRun(zs, more) && zs[0] == y && zs[|more|] == Apply(z, step);
  }

  // --- to a stored plan -----------------------------------------------------------------------

  // A fresh scheduler that has ingested c.
  function Fed(config: SchedulerModel.Config, authority: nat, c: Candidate): Sched {
    Fresh(config, authority).(candidates := map[1 := c], ingestWatermark := 1)
  }

  ghost predicate Idle(z: Sys) {
    z.calls == map[] && z.nextCall == 0
  }

  lemma Publishes(config: SchedulerModel.Config, authority: nat, d: DemandProfile, score: Double) returns (z: Sys)
    ensures Reaches(Start(config, authority), z) && Idle(z) && z.sched == Fed(config, authority, Published(d, score))
  {
    var y, c := Start(config, authority), Published(d, score);
    ReachesSelf(y);
    ReachesNext(y, y, DoIngest(c));
    z := Apply(y, DoIngest(c));
    assert Ingest(y.sched, c) == Ok(Fed(config, authority, c));
  }

  lemma OneInOrder<V>(m: map<nat, V>)
    requires m.Keys == {1}
    ensures InOrder(m) == [m[1]]
  {
    BoundLeast(m.Keys, 2);
    assert 1 in m.Keys && 0 !in m.Keys && Bound(m.Keys) == 2;
    var none := Ascending(m.Keys, 1);
    assert none == Ascending(m.Keys, 0) == [];
    assert Ascending(m.Keys, 2) == none + [1];
    InOrderLists(m);
  }

  lemma Schedules(y: Sys, z: Sys, r: SchedulingRequest, score: Double) returns (t: Sys)
    requires Reaches(y, z) && Idle(z) && z.sched.candidates == map[1 := Published(r.demand, score)] && DemandError(r.demand).None?
    ensures Reaches(y, t) && t.sched == z.sched && t.nextCall == 1
    ensures t.calls == map[0 := Filtering(r, [], [Published(r.demand, score)], [])]
  {
    var c := Published(r.demand, score);
    OneInOrder(z.sched.candidates);
    ReachesNext(y, z, ScheduleBegins(r));
    var u := Opened(z, Filtering(r, [c], [], []));
    assert Apply(z, ScheduleBegins(r)) == u;
    PublishedPasses(r.demand, score, 1);
    t := FiltersOne(y, u, r, c);
  }

  lemma FiltersOne(y: Sys, u: Sys, r: SchedulingRequest, c: Candidate) returns (t: Sys)
    requires Reaches(y, u) && u.calls == map[0 := Filtering(r, [c], [], [])]
    requires Filter(r.demand, c, Gates(None, None)) == Eligible
    ensures Reaches(y, t) && t == u.(calls := map[0 := Filtering(r, [], [c], [])])
  {
    ReachesNext(y, u, ScheduleFilters(0, Gates(None, None), []));
    t := u.(calls := u.calls[0 := Filtered(u.calls[0], Gates(None, None), [])]);
    FilteredAlone(r, c);
  }

  lemma FilteredAlone(r: SchedulingRequest, c: Candidate)
    requires Filter(r.demand, c, Gates(None, None)) == Eligible
    ensures Filtered(Filtering(r, [c], [], []), Gates(None, None), []) == Filtering(r, [], [c], [])
  {
    assert [] + [c] == [c];
  }

  // Some bits for a cost: finite ones for a number, NaN for NaN.
  function SomeBits(x: Extended): Double {
    if x.NaN? then NAN_BITS else 0
  }

  function PlainFactors(fs: seq<Factor>): seq<RankFactor> {
    seq(|fs|, i requires 0 <= i < |fs| => RankFactor(fs[i].kind, SomeBits(fs[i].value), 0, fs[i].provenance, []))
  }

  function FactorsFor(d: DemandProfile, c: Candidate, w: Weights): seq<RankFactor> {
    PlainFactors(Rank(d, c, w).factors)
  }

  lemma BitsRound(x: Extended)
    ensures Rounds(x, SomeBits(x)) && SomeBits(x) < U64_LIMIT
  {}

  lemma PlainFactorsStored(d: DemandProfile, c: Candidate, w: Weights)
    ensures StoredFactors(d, w, c, FactorsFor(d, c, w))
  {
    var fs := Rank(d, c, w).factors;
    forall i | 0 <= i < |fs| ensures Rounds(fs[i].value, FactorsFor(d, c, w)[i].value) { BitsRound(fs[i].value); }
  }

  lemma LoneRanking(d: DemandProfile, w: Weights, c: Candidate)
    ensures IsRanking(d, w, [c], [c])
  {
    OneSorts(Order(d, w), c);
  }

  function LoneVerdict(r: SchedulingRequest, c: Candidate, w: Weights): Verdict {
    Verdict([c], [], FactorsFor(r.demand, c, w), 1)
  }

  lemma Stores(y: Sys, t: Sys, r: SchedulingRequest, c: Candidate) returns (z: Sys)
    requires Reaches(y, t) && t.calls == map[0 := Filtering(r, [], [c], [])]
    ensures Reaches(y, z) && z.sched == Store(t.sched, r, LoneVerdict(r, c, t.sched.config.weights)) && z.calls == map[]
  {
    var fs := FactorsFor(r.demand, c, t.sched.config.weights);
    StoreEnabled(t, r, c);
    z := ReachesStored(y, t, 0, [c], fs, 1);
  }

  lemma ReachesStored(y: Sys, t: Sys, c: nat, ranked: seq<Candidate>, fs: seq<RankFactor>, dependency: nat) returns (z: Sys)
    requires Reaches(y, t) && Enabled(t, ScheduleStores(c, ranked, fs, dependency))
    ensures c in t.calls && t.calls[c].Filtering? && z == Stored(t, c, VerdictOf(t.calls[c], ranked, fs, dependency))
    ensures Reaches(y, z)
  {
    ReachesNext(y, t, ScheduleStores(c, ranked, fs, dependency));
    z := Stored(t, c, VerdictOf(t.calls[c], ranked, fs, dependency));
  }

  lemma StoreEnabled(t: Sys, r: SchedulingRequest, c: Candidate)
    requires t.calls == map[0 := Filtering(r, [], [c], [])]
    ensures Enabled(t, ScheduleStores(0, [c], FactorsFor(r.demand, c, t.sched.config.weights), 1))
  {
    PlainFactorsStored(r.demand, c, t.sched.config.weights);
    LoneRanking(r.demand, t.sched.config.weights, c);
  }

  // The state once the plan is stored.
  function Planned(config: SchedulerModel.Config, authority: nat, r: SchedulingRequest, score: Double): Sched {
    var c := Published(r.demand, score);
    Store(Fed(config, authority, c), r, LoneVerdict(r, c, config.weights))
  }

  /** For every request with a valid demand, and any bits for the candidate's health score, a fresh scheduler has a
      run that stores a plan. */
  lemma PlannedIsReachable(config: SchedulerModel.Config, authority: nat, r: SchedulingRequest, score: Double) returns (z: Sys)
    requires DemandError(r.demand).None?
    ensures Reaches(Start(config, authority), z) && z.calls == map[] && z.sched == Planned(config, authority, r, score)
  {
    var y := Start(config, authority);
    z := Publishes(config, authority, r.demand, score);
    z := Schedules(y, z, r, score);
    z := Stores(y, z, r, Published(r.demand, score));
  }

  lemma PlanOfPlanned(config: SchedulerModel.Config, authority: nat, r: SchedulingRequest, score: Double)
    ensures var s := Planned(config, authority, r, score);
      var f, c := Fed(config, authority, Published(r.demand, score)), Published(r.demand, score);
      && s.plans == map[1 := NewPlan(f, r, LoneVerdict(r, c, config.weights))] && s.candidates == map[1 := c]
      && s.requests == map[] && s.supersessionHistory == [] && s.cancelled == {} && MayCommit(s, 1)
      && s.epoch == 1 && s.authority == authority && s.nextPlanId == 2 && s.nextSubmitOrdinal == 1
      && s.nextEventOrdinal == 5 && s.ingestWatermark == 1
  {}

  // --- to a committed plan --------------------------------------------------------------------

  // The state once a stored plan is committed.
  function CommittedFrom(s: Sched, id: nat): Sched
    requires MayCommit(s, id)
  {
    FinishCommit(BeginCommit(s, id).0, id, s.plans[id].claims, BrokerAnswer(true, [1], 1)).0
  }

  lemma CommitOpens(y: Sys, z: Sys, id: nat) returns (u: Sys)
    requires Reaches(y, z) && MayCommit(z.sched, id)
    ensures Reaches(y, u) && u == CommitOpened(z, id)
  {
    ReachesNext(y, z, CommitBegins(id));
    u := CommitOpened(z, id);
  }

  lemma CommitGranted(y: Sys, u: Sys, c: nat, a: BrokerAnswer) returns (v: Sys)
    requires Reaches(y, u) && c in u.calls && u.calls[c].CommitAsked?
    ensures Reaches(y, v) && v == Answered(u, c, a)
  {
    ReachesNext(y, u, BrokerAnswers(c, a));
    v := Answered(u, c, a);
  }

  lemma CommitEnds(y: Sys, v: Sys, c: nat) returns (t: Sys)
    requires Reaches(y, v) && c in v.calls && v.calls[c].CommitAnswered?
    ensures Reaches(y, t) && t == CommitReturned(v, c)
  {
    ReachesNext(y, v, CommitFinishes(c));
    t := CommitReturned(v, c);
  }

  lemma Commits(y: Sys, z: Sys) returns (t: Sys)
    requires Reaches(y, z) && MayCommit(z.sched, 1) && z.calls == map[]
    ensures Reaches(y, t) && t.sched == CommittedFrom(z.sched, 1) && t.calls == map[]
  {
    var c := z.nextCall;
    t := CommitOpens(y, z, 1);
    t := CommitGranted(y, t, c, BrokerAnswer(true, [1], 1));
    CommitReturnsGranted(z, 1);
    t := CommitEnds(y, t, c);
  }

  lemma CommitReturnsGranted(z: Sys, id: nat)
    requires MayCommit(z.sched, id) && z.calls == map[]
    ensures var v := Answered(CommitOpened(z, id), z.nextCall, BrokerAnswer(true, [1], 1));
      CommitReturned(v, z.nextCall).sched == CommittedFrom(z.sched, id) && CommitReturned(v, z.nextCall).calls == map[]
  {}

  lemma CommittedMayHandOff(s: Sched, id: nat)
    requires MayCommit(s, id)
    ensures MayHandOff(CommittedFrom(s, id), id)
  {}

  lemma CommittedRun(config: SchedulerModel.Config, authority: nat, r: SchedulingRequest) returns (z: Sys)
    requires DemandError(r.demand).None? && MayCommit(Planned(config, authority, r, 0), 1)
    ensures Reaches(Start(config, authority), z) && z.calls == map[]
    ensures z.sched == CommittedFrom(Planned(config, authority, r, 0), 1)
  {
    z := PlannedIsReachable(config, authority, r, 0);
    z := Commits(Start(config, authority), z);
  }

  /** And a run that goes on to a plan ready to be handed off. */
  lemma CommittedIsReachable(config: SchedulerModel.Config, authority: nat, r: SchedulingRequest) returns (z: Sys)
    requires DemandError(r.demand).None?
    ensures Reaches(Start(config, authority), z) && MayHandOff(z.sched, 1)
  {
    PlanOfPlanned(config, authority, r, 0);
    CommittedMayHandOff(Planned(config, authority, r, 0), 1);
    z := CommittedRun(config, authority, r);
  }

  // --- a denied handoff reopens a superseded plan ---------------------------------------------

  lemma Supersedes(y: Sys, u: Sys, c: nat, id: nat) returns (v: Sys)
    requires Reaches(y, u) && id in u.sched.plans && !IsTerminal(u.sched.plans[id].state) && Undisturbed(u.sched, id)
    requires c in u.calls && u.calls[c].HandoffAsked? && u.calls[c].plan == id
    ensures Reaches(y, v) && v.calls == u.calls && id in v.sched.plans && Undisturbed(v.sched, id)
    ensures v.sched.plans[id].state == Superseded
  {
    var r := u.sched.plans[id].requestId;
    ReachesNext(y, u, DoSupersede(r, 0, [], []));
    v := u.(sched := Supersede(u.sched, r, 0, [], []));
    SupersededPlan(u.sched, id);
  }

  lemma SupersededPlan(s: Sched, id: nat)
    requires id in s.plans && !IsTerminal(s.plans[id].state) && Undisturbed(s, id)
    ensures var t := Supersede(s, s.plans[id].requestId, 0, [], []);
      id in t.plans && t.plans[id].state == Superseded && Undisturbed(t, id)
  {
    var r := s.plans[id].requestId;
    SweptAt(Superseding(r, if 0 in s.latest then s.latest[0] else 0, []), s.plans, s.nextEventOrdinal, id);
  }

  lemma Denies(y: Sys, v: Sys, c: nat, id: nat) returns (z: Sys)
    requires Reaches(y, v) && c in v.calls && v.calls[c].HandoffAsked? && v.calls[c].plan == id
    ensures Reaches(y, z) && z.sched == v.sched && c in z.calls && z.calls[c] == HandoffAnswered(id, Unauthorized)
  {
    ReachesNext(y, v, ExecutorAnswers(c, Unauthorized));
    z := v.(calls := v.calls[c := HandoffAnswered(id, Unauthorized)]);
  }

  lemma DenialForces(z: Sys, c: nat, id: nat)
    requires c in z.calls && z.calls[c] == HandoffAnswered(id, Unauthorized) && id in z.sched.plans && Undisturbed(z.sched, id)
    ensures var t := HandoffReturned(z, c).sched; id in t.plans && t.plans[id].state == RevalidationRequired
  {}

  lemma HandsOff(y: Sys, z: Sys, id: nat) returns (u: Sys, c: nat)
    requires Reaches(y, z) && MayHandOff(z.sched, id)
    ensures Reaches(y, u) && c in u.calls && u.calls[c].HandoffAsked? && u.calls[c].plan == id
    ensures id in u.sched.plans && u.sched.plans[id].state == AwaitingExecution && Undisturbed(u.sched, id)
  {
    ReachesNext(y, z, HandoffBegins(id));
    u, c := HandoffOpened(z, id), z.nextCall;
  }

  /** The other way out of a terminal state, on a run from a fresh scheduler: a handoff begins, its request is
      superseded, the executor denies the plan, and the second block requeues it although it is superseded. */
  lemma DeniedHandoffReopens(config: SchedulerModel.Config, authority: nat, r: SchedulingRequest) returns (z: Sys, c: nat)
    requires DemandError(r.demand).None?
    ensures Reaches(Start(config, authority), z) && c in z.calls && z.calls[c].HandoffAnswered?
    ensures 1 in z.sched.plans && z.sched.plans[1].state == Superseded
    ensures var t := HandoffReturned(z, c).sched;
      1 in t.plans && t.plans[1].state == RevalidationRequired && !CanTransition(z.sched.plans[1].state, t.plans[1].state)
  {
    var y := Start(config, authority);
    z := CommittedIsReachable(config, authority, r);
    z, c := HandsOff(y, z, 1);
    z := Supersedes(y, z, c, 1);
    z := Denies(y, z, c, 1);
    DenialForces(z, c, 1);
  }
}
