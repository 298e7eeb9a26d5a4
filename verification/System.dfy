/**
  The scheduler as a concurrent system.  Each mutex-guarded block is one atomic step; between the blocks of a
  schedule, commit or handoff call, and between the actions of the coordinator's fence_worker_and_bump, any
  other step may run.  The broker, the executor, the dependency view and the policy veto answer arbitrarily.
*/
module System {
  import opened Types
  import opened Doubles
  import opened Demand
  import opened Eligibility
  import opened Ranking
  import opened Selection
  import opened SchedulerModel
  import opened Snapshots

  /** A call that has left its first locked block and not yet returned. */
  datatype Call =
    | Filtering(request: SchedulingRequest, pending: seq<Candidate>, eligible: seq<Candidate>,
                rejections: seq<RejectedAlternative>)
    | CommitAsked(plan: nat, claims: seq<ResourceClaim>)
    | CommitAnswered(plan: nat, claims: seq<ResourceClaim>, answer: BrokerAnswer)
    | Releasing(token: Text)
    | HandoffAsked(plan: nat, sent: PlacementPlan)
    | HandoffAnswered(plan: nat, handoff: ExecutionHandoff)
    | FenceMarked(boot: nat)
    | FenceListed(boot: nat)
    | FenceRead(boot: nat, seen: nat)

  type Grant = (nat, Text)     // the call that was granted, and its token

  /** Scheduler state, calls in flight, and the coordinator's fenced set.  The last six fields only record what
      happened: tokens granted, returned and released, plans sent to the broker and launched, and the schedule call
      each plan came from. */
  datatype Sys = Sys(
    sched: Sched, calls: map<nat, Call>, nextCall: nat, fenced: set<nat>,
    granted: multiset<Grant>, returned: multiset<Grant>, released: multiset<Grant>,
    sent: multiset<nat>, launched: multiset<nat>, origin: map<nat, Origin>)

  // The call a plan was stored by, and what that call had found.
  datatype Origin = Origin(
    call: nat, boot: nat, request: SchedulingRequest, eligible: seq<Candidate>, ranked: seq<Candidate>,
    rejections: seq<RejectedAlternative>, dependency: nat)

  function Start(config: Config, authority: nat): Sys {
    Sys(Fresh(config, authority), map[], 0, {}, multiset{}, multiset{}, multiset{}, multiset{}, multiset{}, map[])
  }

  datatype Step =
    | DoSetEpoch(epoch: nat)
    | DoIngest(candidate: Candidate)
    | DoFenceWorker(boot: nat)
    | DoFenceSource(boot: nat)
    | DoCancel(request: nat)
    | DoSupersede(oldRequest: nat, newRequest: nat, reason: Text, entry: Text)
    | DoRevalidate(plan: nat, current: GenerationFingerprint)
    | ScheduleBegins(req: SchedulingRequest)
    | ScheduleFilters(call: nat, gates: Gates, why: Text)
    | ScheduleStores(call: nat, ranked: seq<Candidate>, factors: seq<RankFactor>, dependency: nat)
    | CommitBegins(plan: nat)
    | BrokerAnswers(call: nat, answer: BrokerAnswer)
    | CommitFinishes(call: nat)
    | BrokerReleases(call: nat)
    | HandoffBegins(plan: nat)
    | ExecutorAnswers(call: nat, handoff: ExecutionHandoff)
    | HandoffFinishes(call: nat)
    | FenceMarks(boot: nat)
    | FenceLists(call: nat)
    | FenceReads(call: nat)
    | FenceBumps(call: nat)
    | DoRestore(snapshot: Persisted)

  // What is known of the bits a factor cost is stored as: a number in [0, 1] rounds to a finite double, and NaN
  // stays NaN.
  predicate Rounds(x: Extended, bits: Double) {
    (InUnit(x) ==> IsFinite(bits)) && (x.NaN? ==> Decode(bits).NaN?)
  }

  // The factors of a stored plan are those of the winner's rank.
  ghost predicate StoredFactors(d: DemandProfile, w: Weights, winner: Candidate, fs: seq<RankFactor>) {
    var ranked := Rank(d, winner, w).factors;
    && |fs| == |ranked|
    && forall i :: 0 <= i < |fs| ==>
         fs[i].kind == ranked[i].kind && fs[i].provenance == ranked[i].provenance && Rounds(ranked[i].value, fs[i].value)
  }

  ghost predicate FiniteFactors(fs: seq<RankFactor>) {
    forall i :: 0 <= i < |fs| ==> IsFinite(fs[i].value)
  }

  ghost predicate Enabled(y: Sys, step: Step) {
    match step
    case ScheduleFilters(c, _, _) => c in y.calls && y.calls[c].Filtering? && y.calls[c].pending != []
    case ScheduleStores(c, ranked, fs, _) =>
      && c in y.calls && y.calls[c].Filtering? && y.calls[c].pending == []
      && IsRanking(y.calls[c].request.demand, y.sched.config.weights, y.calls[c].eligible, ranked)
      && (ranked != [] ==> StoredFactors(y.calls[c].request.demand, y.sched.config.weights, ranked[0], fs))
    case BrokerAnswers(c, _) => c in y.calls && y.calls[c].CommitAsked?
    case CommitFinishes(c) => c in y.calls && y.calls[c].CommitAnswered?
    case BrokerReleases(c) => c in y.calls && y.calls[c].Releasing?
    case ExecutorAnswers(c, _) => c in y.calls && y.calls[c].HandoffAsked?
    case HandoffFinishes(c) => c in y.calls && y.calls[c].HandoffAnswered?
    case FenceLists(c) => c in y.calls && y.calls[c].FenceMarked?
    case FenceReads(c) => c in y.calls && y.calls[c].FenceListed?
    case FenceBumps(c) => c in y.calls && y.calls[c].FenceRead?
    case DoRestore(p) => y.calls == map[] && SnapshotOk(p)
    case _ => true
  }

  function Opened(y: Sys, call: Call): Sys {
    y.(calls := y.calls[y.nextCall := call], nextCall := y.nextCall + 1)
  }

  // The verdict a schedule call brings back under the lock.
  function VerdictOf(call: Call, ranked: seq<Candidate>, fs: seq<RankFactor>, dependency: nat): Verdict
    requires call.Filtering?
  {
    Verdict(ranked, call.rejections, fs, dependency)
  }

  function Filtered(call: Call, gates: Gates, why: Text): Call
    requires call.Filtering? && call.pending != []
  {
    var c := call.pending[0];
    var status := Filter(call.request.demand, c, gates);
    if status == Eligible then call.(pending := call.pending[1..], eligible := call.eligible + [c])
    else
      call.(pending := call.pending[1..],
            rejections := call.rejections + [RejectedAlternative(c.candidateId, c.candidateGeneration, status, why)])
  }

  function GrantOf(c: nat, a: BrokerAnswer): multiset<Grant> {
    if a.succeeded && a.token != [] then multiset{(c, a.token)} else multiset{}
  }

  /** One atomic step. */
  ghost function Apply(y: Sys, step: Step): Sys
    requires Enabled(y, step)
  {
    var s := y.sched;
    match step
    case DoSetEpoch(e) => (match SetEpoch(s, e) case Ok(t) => y.(sched := t) case Err(_) => y)
    case DoIngest(c) => (match Ingest(s, c) case Ok(t) => y.(sched := t) case Err(_) => y)
    case DoFenceWorker(b) => y.(sched := FenceWorker(s, b))
    case DoFenceSource(b) => y.(sched := FenceSource(s, b))
    case DoCancel(r) => y.(sched := Cancel(s, r))
    case DoSupersede(o, n, reason, entry) => y.(sched := Supersede(s, o, n, reason, entry))
    case DoRevalidate(id, fp) => (match Revalidate(s, id, fp) case Ok(t) => y.(sched := t.0) case Err(_) => y)
    case ScheduleBegins(r) =>
      if DemandError(r.demand).Some? then y else Opened(y, Filtering(r, InOrder(s.candidates), [], []))
    case ScheduleFilters(c, gates, why) => y.(calls := y.calls[c := Filtered(y.calls[c], gates, why)])
    case ScheduleStores(c, ranked, fs, dependency) => Stored(y, c, VerdictOf(y.calls[c], ranked, fs, dependency))
    case CommitBegins(id) => if MayCommit(s, id) then CommitOpened(y, id) else y
    case BrokerAnswers(c, a) => Answered(y, c, a)
    case CommitFinishes(c) => CommitReturned(y, c)
    case BrokerReleases(c) => Released(y, c)
    case HandoffBegins(id) => if MayHandOff(s, id) then HandoffOpened(y, id) else y
    case ExecutorAnswers(c, h) => y.(calls := y.calls[c := HandoffAnswered(y.calls[c].plan, h)])
    case HandoffFinishes(c) => HandoffReturned(y, c)
    case FenceMarks(b) => FenceOpened(y, b)
    case FenceLists(c) => y.(calls := y.calls[c := FenceListed(y.calls[c].boot)], fenced := y.fenced + {y.calls[c].boot})
    case FenceReads(c) => y.(calls := y.calls[c := FenceRead(y.calls[c].boot, s.epoch)])
    case FenceBumps(c) => FenceBumped(y, c)
    case DoRestore(p) => Recovered(y, p)
  }

  function FenceOpened(y: Sys, boot: nat): Sys {
    Opened(y.(sched := FenceWorker(y.sched, boot)), FenceMarked(boot))
  }

  // A bump that lost a race is a no-op or a swallowed regression.
  ghost function Bumped(s: Sched, seen: nat): Sched {
    match SetEpoch(s, seen + 1) case Ok(t) => t case Err(_) => s
  }

  ghost function FenceBumped(y: Sys, c: nat): Sys
    requires c in y.calls && y.calls[c].FenceRead?
  {
    y.(sched := Bumped(y.sched, y.calls[c].seen), calls := y.calls - {c})
  }

  ghost function Recovered(y: Sys, p: Persisted): Sys {
    y.(sched := Restore(y.sched, p), sent := multiset{}, launched := multiset{}, origin := map[])
  }

  function OriginOf(y: Sys, c: nat, v: Verdict): Origin
    requires c in y.calls && y.calls[c].Filtering? && v.ranked != []
  {
    var call := y.calls[c];
    Origin(c, v.ranked[0].workerBootId, call.request, call.eligible, v.ranked, call.rejections, v.dependency)
  }

  function Stored(y: Sys, c: nat, v: Verdict): Sys
    requires c in y.calls && y.calls[c].Filtering?
  {
    var done := y.(sched := Store(y.sched, y.calls[c].request, v), calls := y.calls - {c});
    if v.ranked == [] then done
    else done.(origin := y.origin[y.sched.nextPlanId := OriginOf(y, c, v)])
  }

  // What a commit call returns to its caller.
  function CommitResultOf(y: Sys, c: nat): CommitResult
    requires c in y.calls && y.calls[c].CommitAnswered?
  {
    FinishCommit(y.sched, y.calls[c].plan, y.calls[c].claims, y.calls[c].answer).1
  }

  // The token a caller is left with.
  function Received(c: nat, r: CommitResult): multiset<Grant> {
    if r.token != [] then multiset{(c, r.token)} else multiset{}
  }

  // A call that has a token to release returns to its caller once that is done.
  function CommitReturned(y: Sys, c: nat): Sys
    requires c in y.calls && y.calls[c].CommitAnswered?
  {
    var call := y.calls[c];
    var (t, _, release) := FinishCommit(y.sched, call.plan, call.claims, call.answer);
    y.(sched := t, calls := if release then y.calls[c := Releasing(call.answer.token)] else y.calls - {c},
       returned := y.returned + Received(c, CommitResultOf(y, c)))
  }

  // BeginCommit refuses exactly when MayCommit fails, and then changes nothing.
  function CommitOpened(y: Sys, id: nat): Sys
    requires MayCommit(y.sched, id)
  {
    var (t, claims) := BeginCommit(y.sched, id);
    Opened(y.(sched := t, sent := y.sent + multiset{id}), CommitAsked(id, claims.value))
  }

  function Answered(y: Sys, c: nat, a: BrokerAnswer): Sys
    requires c in y.calls && y.calls[c].CommitAsked?
  {
    y.(calls := y.calls[c := CommitAnswered(y.calls[c].plan, y.calls[c].claims, a)], granted := y.granted + GrantOf(c, a))
  }

  function Released(y: Sys, c: nat): Sys
    requires c in y.calls && y.calls[c].Releasing?
  {
    y.(calls := y.calls - {c}, released := y.released + multiset{(c, y.calls[c].token)})
  }

  function HandoffOpened(y: Sys, id: nat): Sys
    requires MayHandOff(y.sched, id)
  {
    var (t, plan) := BeginHandoff(y.sched, id);
    Opened(y.(sched := t), HandoffAsked(id, plan.value))
  }

  // What a handoff call returns to its caller.
  function HandoffResult(y: Sys, c: nat): Result<ExecutionHandoff>
    requires c in y.calls && y.calls[c].HandoffAnswered?
  {
    FinishHandoff(y.sched, y.calls[c].plan, y.calls[c].handoff).1
  }

  function HandoffReturned(y: Sys, c: nat): Sys
    requires c in y.calls && y.calls[c].HandoffAnswered?
  {
    var r := HandoffResult(y, c);
    y.(sched := FinishHandoff(y.sched, y.calls[c].plan, y.calls[c].handoff).0, calls := y.calls - {c},
       launched := if r.Ok? && r.value.authorized then y.launched + multiset{y.calls[c].plan} else y.launched)
  }

  // --- runs -----------------------------------------------------------------------------------

  ghost predicate StepAt(ys: seq<Sys>, steps: seq<Step>, i: nat)
    requires i < |steps| && i + 1 < |ys|
  {
    Enabled(ys[i], steps[i]) && ys[i + 1] == Apply(ys[i], steps[i])
  }

  /** ys are the states of a run, steps what happened between them. */
  ghost predicate IsRun(ys: seq<Sys>, steps: seq<Step>) {
    && |ys| == |steps| + 1
    && forall i: nat {:trigger StepAt(ys, steps, i)} :: i < |steps| ==> StepAt(ys, steps, i)
  }
}
