/**
  The scheduler's guarded state and, for each block that runs under its mutex, the function from the state
  before to the state after.  Class Scheduler.Scheduler runs these blocks; module System interleaves them.
*/
module SchedulerModel {
  import opened Types
  import opened Lifecycle
  import opened OrderedKeys
  import opened Ranking
  import opened Selection

  datatype Config = Config(policyGeneration: nat, maxFallback: nat, weights: Weights)

  datatype Sched = Sched(
    config: Config, epoch: nat, authority: nat, nextPlanId: nat, nextSubmitOrdinal: nat,
    nextEventOrdinal: nat, ingestWatermark: nat, candidates: map<nat, Candidate>,
    requests: map<nat, SchedulingRequest>, plans: map<nat, PlacementPlan>, latest: map<nat, nat>,
    supersessionHistory: seq<Text>, cancelled: set<nat>, fencedWorkers: set<nat>, fencedSources: set<nat>)

  function Fresh(config: Config, authority: nat): Sched {
    Sched(config, 1, authority, 1, 1, 1, 0, map[], map[], map[], map[], [], {}, {}, {})
  }

  // --- sweeps over the stored plans -----------------------------------------------------------

  /** The three loops that force every non-terminal plan they select into a state. */
  datatype Sweep =
    | Requeue
    | Cancelling(request: nat)
    | Superseding(request: nat, successor: nat, reason: Text)

  predicate Selects(sw: Sweep, p: PlacementPlan) {
    !IsTerminal(p.state) && (sw.Requeue? || p.requestId == sw.request)
  }

  function Hit(sw: Sweep, p: PlacementPlan, ordinal: nat): PlacementPlan {
    match sw
    case Requeue => Force(p, RevalidationRequired, ordinal)
    case Cancelling(_) => Force(p, Cancelled, ordinal)
    case Superseding(_, successor, reason) => Force(p.(supersededBy := successor, supersessionReason := reason), Superseded, ordinal)
  }

  /** The event counter when an ascending walk reaches plan id n: every selected plan takes one ordinal, even
      when it is already in the target state. */
  function OrdinalAt(sw: Sweep, plans: map<nat, PlacementPlan>, n: nat, start: nat): nat {
    if n == 0 then start
    else OrdinalAt(sw, plans, n - 1, start) + if n - 1 in plans && Selects(sw, plans[n - 1]) then 1 else 0
  }

  function Swept(sw: Sweep, plans: map<nat, PlacementPlan>, start: nat): map<nat, PlacementPlan> {
    map id | id in plans ::
      if Selects(sw, plans[id]) then Hit(sw, plans[id], OrdinalAt(sw, plans, id, start)) else plans[id]
  }

  ghost function Sweeping(s: Sched, sw: Sweep): Sched {
    s.(plans := Swept(sw, s.plans, s.nextEventOrdinal),
       nextEventOrdinal := OrdinalAt(sw, s.plans, Bound(s.plans.Keys), s.nextEventOrdinal))
  }

  lemma {:induction false} OrdinalsClimb(sw: Sweep, plans: map<nat, PlacementPlan>, a: nat, b: nat, start: nat)
    requires a <= b
    ensures start <= OrdinalAt(sw, plans, a, start) <= OrdinalAt(sw, plans, b, start)
    ensures a < b && a in plans && Selects(sw, plans[a]) ==> OrdinalAt(sw, plans, a, start) < OrdinalAt(sw, plans, b, start)
    decreases b
  {
    if a < b {
      OrdinalsClimb(sw, plans, a, b - 1, start);
    } else if b > 0 {
      OrdinalsClimb(sw, plans, a - 1, b - 1, start);
    }
  }

  lemma {:induction false} OrdinalStable(sw: Sweep, plans: map<nat, PlacementPlan>, n: nat, m: nat, start: nat)
    requires n <= m && forall k :: k in plans ==> k < n
    ensures OrdinalAt(sw, plans, n, start) == OrdinalAt(sw, plans, m, start)
  {
    if n < m { OrdinalStable(sw, plans, n, m - 1, start); }
  }

  // --- one-block operations -------------------------------------------------------------------

  ghost function SetEpoch(s: Sched, e: nat): Result<Sched> {
    if e == s.epoch then Ok(s)
    else if e <= s.epoch then Err(StaleAuthority)
    else Ok(Sweeping(s.(epoch := e, authority := s.authority + 1), Requeue))
  }

  function IngestError(s: Sched, c: Candidate): Option<ErrorCode> {
    if c.candidateId == 0 || c.candidateGeneration == 0 || c.sourceBootId == 0 || c.workerBootId == 0 then Some(InvalidArgument)
    else if c.bindings == [] && c.capacity.vramTotal == 0 then Some(InvalidArgument)
    else if c.workerBootId in s.fencedWorkers || c.sourceBootId in s.fencedSources then Some(StaleAuthority)
    else if c.candidateId in s.candidates && c.candidateGeneration <= s.candidates[c.candidateId].candidateGeneration then
      Some(InvalidArgument)
    else None
  }

  function Ingest(s: Sched, c: Candidate): Result<Sched> {
    match IngestError(s, c)
    case Some(e) => Err(e)
    case None => Ok(s.(candidates := s.candidates[c.candidateId := c], ingestWatermark := s.ingestWatermark + 1))
  }

  function FenceWorker(s: Sched, boot: nat): Sched {
    s.(fencedWorkers := s.fencedWorkers + {boot})
  }

  function FenceSource(s: Sched, boot: nat): Sched {
    s.(fencedSources := s.fencedSources + {boot})
  }

  ghost function Cancel(s: Sched, request: nat): Sched {
    Sweeping(s.(cancelled := s.cancelled + {request}), Cancelling(request))
  }

  // `entry` is the formatted history line.
  ghost function Supersede(s: Sched, oldRequest: nat, newRequest: nat, reason: Text, entry: Text): Sched {
    var successor := if newRequest in s.latest then s.latest[newRequest] else 0;
    Sweeping(s, Superseding(oldRequest, successor, reason)).(supersessionHistory := s.supersessionHistory + [entry])
  }

  // Scheduler::revalidate; the result says whether the fingerprint is still current.
  function Revalidate(s: Sched, planId: nat, current: GenerationFingerprint): Result<(Sched, bool)> {
    if planId !in s.plans then Err(UnknownState)
    else if s.plans[planId].generations == current then Ok((s, true))
    else
      Ok((s.(plans := s.plans[planId := Force(s.plans[planId], RevalidationRequired, s.nextEventOrdinal)],
             nextEventOrdinal := s.nextEventOrdinal + 1), false))
  }

  // --- schedule: the second locked block ------------------------------------------------------

  function Fingerprint(c: Candidate, r: SchedulingRequest, dependency: nat, epoch: nat): GenerationFingerprint {
    GenerationFingerprint(
      c.locality.topologyGeneration, c.capacity.generation, c.reservation.generation, c.congestion.generation,
      if c.bindings == [] then 1 else c.bindings[0].capabilityGeneration, c.health.generation,
      c.residency.residencyGeneration, c.communication.planGeneration,
      if r.demand.policyGeneration != 0 then r.demand.policyGeneration else 1,
      if c.bindings == [] then 1 else c.bindings[0].resourceGeneration, dependency, epoch)
  }

  function Claims(bs: seq<DeviceBinding>): seq<ResourceClaim> {
    seq(|bs|, i requires 0 <= i < |bs| => ResourceClaim(bs[i].resourceId, bs[i].resourceGeneration, Accelerator, 1, true))
  }

  // The four transitions a new plan makes before it is stored.
  function FirstHistory(o: nat): seq<HistoryEntry> {
    [HistoryEntry(Discovering, o), HistoryEntry(FilteringState, o + 1), HistoryEntry(RankingState, o + 2),
     HistoryEntry(PlanReady, o + 3)]
  }

  /** What the unlocked part of a schedule call hands to its second block: the ranked survivors, the recorded
      rejections, the winner's factors as stored, and the dependency generation read there. */
  datatype Verdict = Verdict(
    ranked: seq<Candidate>, rejections: seq<RejectedAlternative>, factors: seq<RankFactor>, dependency: nat)

  function NewPlan(s: Sched, r: SchedulingRequest, v: Verdict): PlacementPlan
    requires v.ranked != []
  {
    var winner := v.ranked[0];
    PlacementPlan(
      s.nextPlanId, 1, r.requestId, r.generation, winner.candidateId, winner.candidateGeneration,
      Fallbacks(v.ranked, s.config.maxFallback), winner.bindings, Claims(winner.bindings),
      winner.communication.planGeneration, [], winner.residency.moveBytes, winner.residency.moveSource, false,
      v.factors, v.rejections, Fingerprint(winner, r, v.dependency, s.epoch),
      if r.demand.policyGeneration != 0 then r.demand.policyGeneration else s.config.policyGeneration,
      s.authority, PlanReady, FirstHistory(s.nextEventOrdinal), s.epoch, 0, [], false)
  }

  function Store(s: Sched, r: SchedulingRequest, v: Verdict): Sched {
    if v.ranked == [] then s.(requests := s.requests[r.requestId := r])
    else
      s.(plans := s.plans[s.nextPlanId := NewPlan(s, r, v)], latest := s.latest[r.requestId := s.nextPlanId],
         nextPlanId := s.nextPlanId + 1, nextEventOrdinal := s.nextEventOrdinal + 4)
  }

  // --- commit ---------------------------------------------------------------------------------

  datatype BrokerAnswer = BrokerAnswer(succeeded: bool, token: Text, resourceGeneration: nat)

  datatype CommitResult = CommitResult(succeeded: bool, token: Text, resourceGeneration: nat)

  predicate MayCommit(s: Sched, planId: nat) {
    && planId in s.plans && s.plans[planId].state == PlanReady
    && s.plans[planId].requestId !in s.cancelled && s.plans[planId].authorityGeneration == s.authority
  }

  // First block: on success the plan waits for the broker and its claims go out.
  function BeginCommit(s: Sched, planId: nat): (Sched, Option<seq<ResourceClaim>>) {
    if !MayCommit(s, planId) then (s, None)
    else
      (s.(plans := s.plans[planId := Record(s.plans[planId], AwaitingResourceCommit, s.nextEventOrdinal)],
          nextEventOrdinal := s.nextEventOrdinal + 1),
       Some(s.plans[planId].claims))
  }

  // The re-check of the second block.
  predicate Stale(s: Sched, planId: nat)
    requires planId in s.plans
  {
    || s.plans[planId].requestId in s.cancelled
    || s.plans[planId].authorityGeneration != s.authority
    || s.plans[planId].state != AwaitingResourceCommit
  }

  /** Second block: the new state, the caller's result, and whether the broker's token must be released. */
  function FinishCommit(s: Sched, planId: nat, claims: seq<ResourceClaim>, a: BrokerAnswer): (Sched, CommitResult, bool) {
    var failed := CommitResult(false, [], a.resourceGeneration);
    if planId !in s.plans || Stale(s, planId) then (s, failed, a.succeeded && a.token != [])
    else
      var p := s.plans[planId];
      if !a.succeeded then
        (s.(plans := s.plans[planId := Record(p, RevalidationRequired, s.nextEventOrdinal)],
            nextEventOrdinal := s.nextEventOrdinal + 1), failed, false)
      else
        (s.(plans := s.plans[planId := Record(p, Committed, s.nextEventOrdinal).(hasCommitmentEvidence := true, claims := claims)],
            nextEventOrdinal := s.nextEventOrdinal + 1),
         CommitResult(true, a.token, a.resourceGeneration), false)
  }

  // --- handoff --------------------------------------------------------------------------------

  datatype ExecutionHandoff = ExecutionHandoff(
    executionId: nat, executionGeneration: nat, attemptId: nat, attemptGeneration: nat,
    authorityGeneration: nat, authorized: bool)

  const Unauthorized: ExecutionHandoff := ExecutionHandoff(0, 0, 0, 0, 0, false)

  predicate MayHandOff(s: Sched, planId: nat) {
    && planId in s.plans && s.plans[planId].state == Committed
    && s.plans[planId].requestId !in s.cancelled && s.plans[planId].authorityGeneration == s.authority
  }

  function BeginHandoff(s: Sched, planId: nat): (Sched, Option<PlacementPlan>) {
    if !MayHandOff(s, planId) then (s, None)
    else
      (s.(plans := s.plans[planId := Record(s.plans[planId], AwaitingExecution, s.nextEventOrdinal)],
          nextEventOrdinal := s.nextEventOrdinal + 1),
       Some(s.plans[planId]))
  }

  /** Second block.  An authorized answer for a plan the table cannot move to Active raises, with the event
      ordinal already taken. */
  function FinishHandoff(s: Sched, planId: nat, h: ExecutionHandoff): (Sched, Result<ExecutionHandoff>) {
    if planId !in s.plans then (s, Ok(h))
    else
      var p := s.plans[planId];
      var ticked := s.(nextEventOrdinal := s.nextEventOrdinal + 1);
      if p.requestId in s.cancelled || p.authorityGeneration != s.authority then (s, Ok(h.(authorized := false)))
      else if h.authorized then
        match Advance(p, Active, s.nextEventOrdinal)
        case Ok(q) => (ticked.(plans := s.plans[planId := q]), Ok(h))
        case Err(e) => (ticked, Err(e))
      else (ticked.(plans := s.plans[planId := Force(p, RevalidationRequired, s.nextEventOrdinal)]), Ok(h))
  }

  // --- snapshot and restore -------------------------------------------------------------------

  function Pick<V>(m: map<nat, V>, ks: seq<nat>): seq<V>
    requires forall k :: k in ks ==> k in m
  {
    seq(|ks|, i requires 0 <= i < |ks| => m[ks[i]])
  }

  ghost function InOrder<V>(m: map<nat, V>): seq<V> {
    AscendingKeys(m.Keys, Bound(m.Keys));
    Pick(m, Ascending(m.Keys, Bound(m.Keys)))
  }

  function Identity(c: Candidate): CandidateIdentity {
    CandidateIdentity(c.candidateId, c.candidateGeneration, c.sourceId, c.sourceBootId, c.workerId, c.workerBootId)
  }

  function Identities(cs: seq<Candidate>): seq<CandidateIdentity> {
    seq(|cs|, i requires 0 <= i < |cs| => Identity(cs[i]))
  }

  ghost function Snapshot(s: Sched): Persisted {
    Persisted(1, s.epoch, s.authority, s.nextPlanId, s.nextSubmitOrdinal, s.nextEventOrdinal, s.ingestWatermark,
              InOrder(s.requests), InOrder(s.plans), Identities(InOrder(s.candidates)),
              s.supersessionHistory, s.cancelled)
  }

  // std::map::emplace keeps the first entry of a key.
  function RequestMap(rs: seq<SchedulingRequest>): map<nat, SchedulingRequest> {
    if rs == [] then map[]
    else
      var m, r := RequestMap(rs[..|rs| - 1]), rs[|rs| - 1];
      if r.requestId in m then m else m[r.requestId := r]
  }

  function PlanMap(ps: seq<PlacementPlan>): map<nat, PlacementPlan> {
    if ps == [] then map[]
    else
      var m, p := PlanMap(ps[..|ps| - 1]), ps[|ps| - 1];
      if p.planId in m then m else m[p.planId := p]
  }

  function LatestMap(ps: seq<PlacementPlan>): map<nat, nat> {
    if ps == [] then map[]
    else
      var m, p := LatestMap(ps[..|ps| - 1]), ps[|ps| - 1];
      if p.requestId in m && m[p.requestId] >= p.planId then m else m[p.requestId := p.planId]
  }

  // The state just before restore's final sweep.
  function Loaded(config: Config, p: Persisted): Sched {
    Sched(config, p.epoch, p.authority, p.nextPlanId, p.nextSubmitOrdinal, p.nextEventOrdinal, p.ingestWatermark,
          map[], RequestMap(p.requests), PlanMap(p.plans), LatestMap(p.plans), p.supersessionHistory,
          p.cancelledRequests, {}, {})
  }

  ghost function Restore(s: Sched, p: Persisted): Sched {
    Sweeping(Loaded(s.config, p), Requeue)
  }
}
