# Fabric Scheduler: a verified model

Fabric Scheduler places workloads on accelerator candidates that workers publish. It filters the candidates,
ranks the survivors, stores a placement plan for the winner, and then commits the plan with an external resource
broker and hands it to an external executor. Both are called with no lock held, while epochs move, requests are
cancelled or superseded, plans are revalidated and worker boots are fenced. The state is saved to a checksummed
file and recovered from it.

The project models the four parts where the difficult guarantees live, and proves them.

**The scheduler as a concurrent system.** `Scheduler` is the facade as a class: one method for each block that runs
under the mutex, updating maps, sets and counters in place, each proved equal to a function of module
`SchedulerModel` on the abstract state. `System` interleaves those blocks: a state holds the scheduler, the calls in
flight and the coordinator's fenced set, and a step is one locked block, one answer of an external party, or one
action of `fence_worker_and_bump`. Broker, executor, dependency view and policy veto answer arbitrarily. `Invariants`
and `SystemInvariant` say what every step keeps; `Effects` says exactly what each block moves and that it touches
nothing else. `Runs`, `Safety`, `Transitions`, `Answers`, `PlanOrigins` and `Epochs` prove what follows for every run:
who can launch, what a call brings back, where a stored plan comes from, and how epoch and authority move.
`Coordinator` adds what the coordinator's own broker and executor guarantee.

**Filter, rank, sort, select.** `Demand`, `Eligibility`, `Ranking`, `Domination`, `Sorting`, `Selection` and
`Publication`. `Constraints` states on the fields what each answer of the filter means, `FactorCosts` what each factor
costs, and `TieBreaks` what the comparator compares. Candidates carry doubles as 64-bit patterns. The ranker reads them as numbers, infinities or NaN
(`Doubles.Extended`), with the comparisons of the source, so a cost is a real number or NaN; only rounding is left
out. A candidate is *scorable* when none of its factor costs is NaN, and survivors are *comparable* when they are all
scorable or there are fewer than two.

**The codecs.** `Coding` is the byte writer and reader. `Wire` encodes and decodes any record from a schema that
lists its fields and the decoder's checks in the order the source makes them; `Records`, `CandidateRecords` and
`Persistence` hold the schemas, one per `enc_*`/`dec_*` pair. `Digest` is FNV-1a 64; `SavedFiles` and `Frames` are the
saved file and the protocol frame. `Layout` and `FileLayout` write the bytes of every record, file and frame out field
by field; `InRange` says on the fields which records the codec can carry; `Canonical` and `Rewrites` show that what is
read is written again as the same bytes; `Transport` is what survives a record's trip to the other side.

**Recovery.** `Snapshots`, `Durability` and `Recovery` compose the state machine with the codec; `AnyFile` says what
remains true after a recovery from a file that no scheduler wrote. `Scenario` and `FailedLoads` hold concrete runs from
a fresh scheduler, the second to saves that do not load; `Sizes` bounds the encodings those runs write.

`std::map` iterates in ascending key order, so a walk over a map is a walk over ids below a bound
(`OrderedKeys`). A thrown `FabricError` is an `Err` result with the same code. Counters and generations are unbounded
naturals, assuming that 64-bit counters do not wrap; the VRAM products, where the wrap matters, are computed modulo
2^64. `restore` is a step only when no call is in flight and only from a snapshot that a scheduler can have produced
(`Snapshots.SnapshotOk`), because the second block of a call finds its plan again by id alone and `restore` rewinds the
id counter.

## What is false, and exactly when

- Terminal states do not absorb. A terminal plan is left untouched by every step except a diverging `revalidate` of it
  and a denied `handoff` of it that is still undisturbed; `Transitions.TerminalFrozenIff` proves the equivalence.
  `Transitions.CancelThenRevalidate` and `Scenario.DeniedHandoffReopens` are the two failing runs, the second from a
  fresh scheduler. What absorbs is being dead: terminal or awaiting revalidation.
- VRAM arithmetic is exact for every accepted demand but one: 2^44 bytes on 2^20 devices, where the 64-bit product is 0
  (`Demand.VramProductExact`, `Eligibility.EligibleFitsVram`). That demand is accepted (`Demand.CornerIsAccepted`).
- The ranking is not deterministic for all evidence. Ingest and decode accept NaN, `clamp01` passes it through, and a
  candidate with a NaN score neither precedes nor follows any other. The comparator is a strict total order, the
  result is strictly sorted, the winner precedes the rest and the order of the snapshot does not matter, each of these
  if and only if the survivors are comparable (`Selection.ComparatorTotalIff`, `DecisionPartitions`,
  `WinnerAndFallbacks`, `OrderNeverMattersIff`). `Selection.NaNCandidate` gives two candidates, listed by id as
  `schedule` lists them, of which the one without a score is selected ahead of the one that has a score. The order of
  the snapshot concerns the sort stage only: `schedule` always lists candidates by id, so it does reach the same decision
  for every delivery order (`Publication.DecisionIgnoresDelivery`), and under that listing a dominated candidate with
  the larger id is never first, comparable survivors or not (`Publication.DominatedNeverFirst`). The runs allow the
  sort any permutation of survivors that are not comparable (`Selection.IsRanking`).
- A saved snapshot does not always load. It loads exactly when every stored plan's candidate is known and no stored
  cost is NaN (`Recovery.SnapshotLoadsIff`). Right after a recovery that brought a plan back it does not
  (`Recovery.RecoveredSnapshotRejected`), and a winner without a score spoils every later save
  (`Recovery.NaNWinnerStoresNaN`, `Recovery.NaNPlanSpoilsSaves`). Both happen on runs from a fresh scheduler, for every
  request with a valid demand: `FailedLoads.NaNSaveFails` and `FailedLoads.RecoveredSaveFails`.
- The loader accepts files that no scheduler can have written: it does not look at histories. Restoring an accepted
  snapshot re-establishes the invariant if and only if its histories recover (`AnyFile.RestoreOkIff`): each is in order
  below the ordinal that recovery records after it, or below the final counter if recovery records nothing there, and
  no ordinal occurs in two of them. `AnyFile.AcceptedFileBreaksHistories` is a file that loads and whose restore fails
  this. No accepted file makes a recovered plan launch (`AnyFile.AcceptedFileLaunchesNothing`).
- A request does not survive its codec whole: `requiredTopologyGeneration` is not written
  (`Transport.TransportWeakensTopologyOnly` says what that can change).
- The evidence-strength key of the comparator never decides anything and no rank is ever flagged deterministic,
  because the energy factor always reports unknown evidence (`Ranking.StrengthNeverDecides`).
- The header comment of `ByteReader` promises `Corruption` for a truncated read; the code raises `Truncation`, and the
  model follows the code. The header comment of `persist_save` promises a `Corruption` error on a malformed snapshot;
  the code writes any snapshot, and so does the model.

## Model

| member | source | states |
|---|---|---|
| Safety.NoStaleLaunch | src/scheduler.cpp:256-378 | in every interleaving, once an effective epoch change, a cancel or supersede of its request, or a diverging revalidate has hit a plan, no later commit of it succeeds and no later handoff of it is authorized |
| Safety.DeadNeverLaunches | src/scheduler.cpp:262-268 | a plan that is terminal or awaiting revalidation is never launched again |
| Safety.LaunchNeedsLive | src/scheduler.cpp:285-305 | a commit that succeeds or a handoff that is authorized returns while the plan is live, under the current authority, its request not cancelled |
| Runs.DeadAbsorbs | src/scheduler.cpp:93-105 | along a run a stored plan stays stored, only its state, history, supersession marks and evidence change, and once dead it stays dead |
| Runs.StepKeeps | src/scheduler.cpp:93-378 | every atomic step keeps the system invariant, and every step but a restore only moves forward |
| Runs.InvAlways | src/scheduler.cpp:57-89 | the invariant holds at every point of every run |
| Runs.StartOk | src/scheduler.cpp:82-87 | a fresh scheduler meets the invariant |
| Safety.HandoffRaisesIff | src/scheduler.cpp:325-338 | the second block of a handoff raises an illegal transition exactly when the executor authorized a plan that died by supersession or revalidation in between; it authorizes exactly when the plan still awaits execution |
| SystemInvariant.StaleIsStateTest | src/scheduler.cpp:287-289 | in a reachable state commit's three-way staleness test equals its state test alone |
| SystemInvariant.LaunchIsActive | src/scheduler.cpp:330-335 | a handoff result is authorized only for a plan that is active when it returns |
| Safety.WaitingHasOneCall | src/scheduler.cpp:269-281 | a plan awaiting the broker (the executor) has exactly one commit (handoff) in flight |
| Safety.QuiescentStates | src/scheduler.cpp:256-339 | with no commit or handoff in flight a plan is ready, committed, active or dead |
| Safety.AtMostOnce | src/scheduler.cpp:256-339 | since the last recovery a plan reached the broker at most once and was authorized at most once; past commitment it carries evidence |
| Safety.ClaimsStand | src/scheduler.cpp:269-303 | the claims in flight to the broker are the plan's own |
| Safety.ShownPlanStands | src/scheduler.cpp:321-325 | the plan the executor is asked about is the stored plan, committed and with its evidence |
| Answers.CommitReturnsItsGrant | src/scheduler.cpp:276-309 | over every run a commit succeeds exactly when its own broker call granted and the plan still waits, and then returns that answer's token and resource generation; any other result has that generation and no token |
| Answers.CommitReleasesItsGrant | src/scheduler.cpp:280-308 | a granted token that is not returned goes on to be released, and no other commit releases anything |
| Answers.HandoffReturnsItsAnswer | src/scheduler.cpp:325-339 | over every run a handoff that does not raise returns the execution and attempt of its own executor answer, authorized exactly when the executor said so and the plan still awaits execution |
| Safety.GrantsConserved | src/scheduler.cpp:273-309 | broker grants are the tokens that callers got back plus the released ones plus those held by calls in flight, each once |
| Safety.EndedGrantSettled | src/scheduler.cpp:307-308 | when a call has ended its grant's token was returned to the caller or released, one of the two, exactly once |
| Safety.EpochAdvanceKills | src/scheduler.cpp:93-105 | if the epoch moved between two points, every plan stored at the first is dead at the second |
| Safety.FenceKills | tools/coordinator_main.cpp:126-140 | when fence_worker_and_bump returns, every plan stored when it read the epoch is dead, whatever raced with its bump |
| Safety.LivePlanOverlapsFence | tools/coordinator_main.cpp:85-100 | after fencing a boot, a live plan on it comes from a schedule call opened before the boot was listed and stored after the epoch was read |
| Safety.LivePlanHasOrigin | src/scheduler.cpp:196-231 | every live plan was stored by a recorded schedule call |
| Safety.StartOrigins | src/scheduler.cpp:82-87 | a fresh scheduler meets what the fencing theorems ask of the first state |
| PlanOrigins.PlanIsItsWinner | src/scheduler.cpp:191-219 | over every run a plan stored since the last recovery selects a survivor of its schedule call that meets all the request asked for and was ranked first, ahead of all others when they are comparable; it binds and claims exactly that candidate's devices and its fingerprint names that candidate's evidence |
| PlanOrigins.PlanIsItsCall | src/scheduler.cpp:176-227 | the rest of such a plan is its request's and its call's: factors, rejections that the filter answered, runners-up, policy and epoch |
| PlanOrigins.StoredHasOrigin | src/scheduler.cpp:196-231 | every plan stored since a point without a recovery after it has its schedule call recorded |
| PlanOrigins.StartSound | src/scheduler.cpp:82-87 | a fresh scheduler meets what these theorems ask of the first state |
| Epochs.EpochIsLargest | src/scheduler.cpp:93-105 | between recoveries the epoch is the largest of the one at the start and all that were tried since, by set_epoch or by fencing |
| Epochs.AuthorityCounts | src/scheduler.cpp:93-105 | the authority goes up by exactly one for each time the epoch moves, and only then |
| Effects.FreshIs | src/scheduler.cpp:57-87 | a fresh scheduler is in epoch 1 with the configured authority, ids and ordinals from 1, everything else empty |
| Effects.EpochAnswers | src/scheduler.cpp:93-99 | a smaller epoch is refused as stale, the present one changes nothing |
| Effects.EpochMoves | src/scheduler.cpp:98-104 | a larger epoch takes the next authority and requeues exactly the unfinished plans, at one ordinal each; nothing else changes |
| Effects.IngestAnswers | src/scheduler.cpp:110-133 | evidence is stored if and only if it is well formed, unfenced and newer; exactly well-formed fenced evidence is told it is stale; nothing else changes |
| Effects.CancelMoves | src/scheduler.cpp:351-360 | cancelling cancels exactly the request's unfinished plans, at one ordinal each; nothing else changes |
| Effects.SupersedeMoves | src/scheduler.cpp:362-378 | superseding marks and supersedes exactly the old request's unfinished plans and logs one line; nothing else changes |
| Effects.RevalidateMoves | src/scheduler.cpp:341-349 | an unknown plan raises, an equal fingerprint changes nothing, any other requeues that plan alone whatever its state |
| Effects.StoreMoves | src/scheduler.cpp:196-236 | with a survivor one fresh plan is filed and indexed, without one the request is kept; nothing else changes |
| Effects.CommitBeginsIff | src/scheduler.cpp:258-271 | the broker is asked, for the plan's own claims, if and only if the plan is ready, its request stands and its authority is current |
| Effects.CommitFinishes | src/scheduler.cpp:276-307 | the second block commits a waiting plan on a grant, requeues it on a refusal, and leaves everything alone otherwise |
| Effects.HandoffBeginsIff | src/scheduler.cpp:313-323 | the executor is shown the plan if and only if it is committed, its request stands and its authority is current |
| Effects.HandoffFinishes | src/scheduler.cpp:325-338 | the second block activates, requeues, spends an ordinal, or leaves everything alone, each in its own case |
| Effects.TableIs | src/placement.cpp:19-96 | the transition table row by row, both directions |
| Coordinator.InMemoryBroker.Commit | tools/coordinator_main.cpp:45-60 | a commit fails once when told to, otherwise succeeds with the next numbered token |
| Coordinator.TokenInjective | tools/coordinator_main.cpp:58-58 | different numbers make different tokens |
| Coordinator.TokensUnique | tools/coordinator_main.cpp:45-60 | with one such broker no two calls of a run are granted the same token |
| Coordinator.OnlyRevalidationReopens | tools/coordinator_main.cpp:64-80 | with the coordinator's executor the only step that ever changes a terminal plan is a diverging revalidation of it |
| Transitions.TerminalFrozenIff | src/scheduler.cpp:34-38 | a terminal plan's record survives a step untouched if and only if the step is not one of the two forced ones; those reopen it |
| Transitions.StepIsLegalIff | src/placement.cpp:19-96 | a step's change to a stored plan is one the table lists, except exactly when a terminal plan is forced |
| Transitions.CancelThenRevalidate | src/scheduler.cpp:341-360 | cancelling a plan and then revalidating it against other generations reopens it, against the table |
| Transitions.ClimbsAlways | src/placement.cpp:19-96 | while a plan is never reopened its history is a complete, strictly climbing path of the table ending in its state, across recoveries that bring it back with such a history |
| Transitions.TransitionsBounded | src/scheduler.cpp:20-38 | from a fresh scheduler such a plan makes at most ten transitions in its life, recoveries included |
| Transitions.SavedIsSettled | src/scheduler.cpp:454-454 | a saved snapshot brings such a history back |
| Scenario.PlannedIsReachable | src/scheduler.cpp:110-231 | for every request with a valid demand, and any health score, a fresh scheduler has a run that stores a plan |
| Scenario.CommittedIsReachable | src/scheduler.cpp:110-309 | for every request with a valid demand a fresh scheduler has a run to a plan ready for handoff |
| Scenario.DeniedHandoffReopens | src/scheduler.cpp:325-337 | on such a run, superseding the request before a denied answer reopens the superseded plan, against the table |
| Transitions.HistoriesAlways | src/scheduler.cpp:20-38 | over every run ids are below the counter, histories hold at most 64 entries, strictly increase, stay below the event counter, end in the state until full, and no ordinal occurs in two plans |
| Transitions.StandingAlways | src/scheduler.cpp:215-231 | over every run a live plan carries the current epoch and authority, no plan of a cancelled request is engaged, and the index names each request's largest plan id |
| Lifecycle.PlacementAdvance | src/placement.cpp:104-117 | succeeds exactly for listed transitions, agrees with the scheduler's own advance while the history has room, and draws an ordinal only when given none |
| Invariants.SetEpochKeeps | src/scheduler.cpp:93-105 | an epoch that moves forward leaves every stored plan dead |
| Invariants.CancelKeeps | src/scheduler.cpp:351-360 | after a cancel every plan of the request is dead |
| Invariants.SupersedeKeeps | src/scheduler.cpp:362-378 | after a supersede every plan of the old request is dead |
| Invariants.SupersedeRecords | src/scheduler.cpp:364-374 | supersede marks exactly the non-terminal plans of the old request with the new request's latest plan and the reason |
| Invariants.RevalidateKeeps | src/scheduler.cpp:341-349 | a diverging revalidation leaves the plan dead, whatever state it was in |
| Invariants.StoreKeeps | src/scheduler.cpp:196-238 | schedule's second block files a live plan under a fresh id and keeps the invariant |
| Invariants.FinishCommitKeeps | src/scheduler.cpp:287-305 | commit's second block keeps the invariant |
| Invariants.FinishHandoffKeeps | src/scheduler.cpp:325-338 | handoff's second block launches a live plan, raises on a dead one, and kills a denied one |
| Invariants.SweepRestores | src/scheduler.cpp:102-104 | forcing every selected plan keeps ordinals unique across plans and histories in order |
| SchedulerModel.OrdinalsClimb | src/scheduler.cpp:102-104 | a walk over the plans draws one fresh, larger ordinal for each plan it selects |
| Scheduler.Scheduler.constructor | src/scheduler.cpp:82-87 | a new scheduler is in the fresh state |
| Scheduler.Scheduler.ForceEach | src/scheduler.cpp:102-104 | the loop that forces each selected plan, in id order, computes the sweep |
| Scheduler.Scheduler.SetEpoch | src/scheduler.cpp:93-105 | no-op on the same epoch, stale-authority error on a smaller one, otherwise a new authority and every plan forced |
| Scheduler.Scheduler.IngestCandidate | src/scheduler.cpp:110-133 | the five checks, the two fences and the generation test in order; a refused candidate changes nothing |
| Scheduler.Scheduler.Cancel | src/scheduler.cpp:351-360 | records the request and cancels its plans |
| Scheduler.Scheduler.Supersede | src/scheduler.cpp:362-378 | supersedes the request's plans and logs the supersession |
| Scheduler.Scheduler.Revalidate | src/scheduler.cpp:341-349 | unknown plan raises; a diverging fingerprint forces the plan |
| Scheduler.Scheduler.ScheduleSnapshot | src/scheduler.cpp:160-167 | an invalid demand raises; otherwise the candidates in id order |
| Scheduler.Scheduler.ScheduleStore | src/scheduler.cpp:196-239 | stamps the epoch and authority current at that moment, indexes the plan, or keeps the request |
| Scheduler.Scheduler.BuildPlan | src/scheduler.cpp:199-227 | the stored plan, moved through its four first states |
| Scheduler.Scheduler.CommitBegin | src/scheduler.cpp:258-271 | the four refusals, or the claims and the wait for the broker |
| Scheduler.Scheduler.CommitFinish | src/scheduler.cpp:276-309 | stale, failed and successful outcome, and whether the token must be released |
| Scheduler.Scheduler.HandoffBegin | src/scheduler.cpp:313-323 | the four refusals, or the plan sent out and the wait for the executor |
| Scheduler.Scheduler.HandoffFinish | src/scheduler.cpp:325-338 | unauthorized on a cancellation or a new authority, else launch, raise or requeue |
| Scheduler.Scheduler.FenceWorker | src/scheduler.cpp:433-436 | adds the boot |
| Scheduler.Scheduler.FenceSource | src/scheduler.cpp:438-441 | adds the boot |
| Scheduler.Scheduler.TakeSnapshot | src/scheduler.cpp:444-468 | the records in key order and the identities of the candidates |
| Scheduler.Scheduler.Restore | src/scheduler.cpp:470-498 | rebuilds maps and index, clears evidence and fences, forces every non-terminal plan |
| Scheduler.MakeReady | src/scheduler.cpp:222-228 | each of a new plan's four transitions is legal and recorded |
| Scheduler.BuildClaims | src/scheduler.cpp:40-53 | one provisional accelerator claim per binding |
| Scheduler.ListFallbacks | src/scheduler.cpp:206-209 | the loop lists the next entries up to the limit, all of them for zero |
| Revalidation.RevalidatePlan | src/revalidation.cpp:7-42 | reports exactly the generations that differ; the report is empty exactly when the plan is current |
| Revalidation.ReportIsExact | src/revalidation.cpp:13-36 | the report covers all twelve generations of the fingerprint's equality |
| Demand.Validate | src/request.cpp:13-88 | the validation chain with its locality loop computes the first error |
| Demand.AcceptedIffWellFormed | src/request.cpp:13-88 | a demand is accepted exactly when it is well formed over the integers, and otherwise the error names the first thing that is wrong |
| Demand.SaturatingMulIsMin | src/eligibility.cpp:14-19 | the saturating product is the integer product or 2^64 - 1 |
| Demand.VramProductExact | src/request.cpp:46-51 | for accepted demands the 64-bit and the saturating product are the integer product, but for one corner |
| Demand.CornerIsAccepted | src/request.cpp:8-51 | that corner is a demand that validation accepts |
| Eligibility.Evaluate | src/eligibility.cpp:33-184 | the constraint chain with its two search loops computes the first failed constraint |
| Eligibility.EligibleFitsVram | src/eligibility.cpp:74-83 | passing the filter guarantees VRAM for every device if and only if the demand is not the wrapping corner |
| Constraints.EligibleIff | src/eligibility.cpp:33-184 | a candidate is eligible if and only if it covers every demanded quantity and property, is known to be ready and unprotected, and no gate refuses |
| Constraints.EarlyAnswersIff | src/eligibility.cpp:40-93 | exactly when the answer is insufficient evidence, capability or capacity: the first of these that is not met |
| Constraints.MiddleAnswersIff | src/eligibility.cpp:95-117 | exactly when it is pinned memory, contiguity or health, all before being met |
| Constraints.LateAnswersIff | src/eligibility.cpp:119-162 | exactly when it is network, storage, reservation or topology, all before being met |
| Constraints.GateAnswersIff | src/eligibility.cpp:164-178 | exactly when it is a dependency or the policy, all before being met |
| Ranking.RankFactorIndex | include/fabric_scheduler/policy.hpp:50-55 | the search finds the one place of a factor |
| Ranking.RankCandidate | src/ranking.cpp:240-298 | the accumulating loop computes every field of the rank, NaN included |
| Ranking.FactorInUnit | src/ranking.cpp:17-238 | every factor cost lies between 0 and 1, or is NaN exactly when a reading it is computed from is |
| Ranking.RankNumericIff | src/ranking.cpp:240-298 | the score and its tie-break costs are numbers exactly when the candidate is scorable; otherwise the score is NaN |
| Ranking.RankBounded | src/ranking.cpp:240-298 | with non-negative weights the score of a scorable candidate lies between zero and the sum of the weights |
| Ranking.StrengthNeverDecides | src/ranking.cpp:199-204 | the evidence strength of every rank is zero and no rank is deterministic |
| Ranking.BeforeIsStrictTotal | src/ranking.cpp:34-43 | on ranks whose costs are numbers the eight-key comparator is a strict order, total on distinct ids |
| Ranking.NaNIsUnordered | src/ranking.cpp:35-35 | a rank with a NaN score neither precedes nor follows any rank |
| FactorCosts.CapacityCosts | src/ranking.cpp:57-94 | capacity factors cost need over availability capped at 1, and 1 when nothing is available; the headroom factor the larger of two such quotients |
| FactorCosts.DistanceCosts | src/ranking.cpp:95-127 | distances cost their quotient by 4 or 8 capped at 1, a shared root counting as hops |
| FactorCosts.MovementCosts | src/ranking.cpp:166-223 | movement and reservation cost their quotient by the demand's bound, 8 GiB or the VRAM, capped at 1 |
| FactorCosts.ConstantCosts | src/ranking.cpp:146-236 | residency, local state and start-up cost their constants, and five factors nothing |
| FactorCosts.ReadingCosts | src/ranking.cpp:128-229 | readings cost themselves, their half, what they lack of 1, or their sum, brought into [0, 1] |
| FactorCosts.BetterCostsLess | src/ranking.cpp:45-238 | strictly better evidence in a factor, below its cap, costs strictly less there |
| FactorCosts.StrictlyBetterPrecedes | src/ranking.cpp:34-298 | a candidate nowhere worse and strictly better in a factor of positive weight scores strictly less and precedes the other whatever the ids |
| FactorCosts.StrictlyBetterWins | src/scheduler.cpp:176-204 | through filter, rank and sort of comparable survivors it keeps the other from being selected, whatever the ids |
| TieBreaks.BeforeIsLexicographic | src/ranking.cpp:34-43 | of ranks that are numbers one precedes the other if and only if it is better in the first of the eight keys that differ |
| TieBreaks.MovementKey | src/ranking.cpp:276-276 | the movement key is the checkpoint-movement cost |
| TieBreaks.HeadroomKey | src/ranking.cpp:277-280 | the headroom key adds the four headroom costs |
| TieBreaks.CountedKeys | src/ranking.cpp:246-293 | the other keys count unknown factors and local bindings, clamp the congestion reading, and name the candidate |
| TieBreaks.FactorEvidence | src/ranking.cpp:57-236 | each factor reports the provenance of the evidence it is computed from |
| TieBreaks.ScoreMoves | src/ranking.cpp:269-269 | a change in one cost moves the score by its weight times that change |
| TieBreaks.UnitWeights | include/fabric_scheduler/policy.hpp:69-95 | the eleven default weights that are 1 |
| TieBreaks.DefaultWeights | include/fabric_scheduler/policy.hpp:69-95 | the other sixteen |
| TieBreaks.ResidencyDecides | src/ranking.cpp:146-149 | of two candidates that differ in their ids and a resident model the one without it scores 3 * 0.5 more by default and comes later whatever the ids |
| Doubles.DecodesAs | src/ranking.cpp:19-23 | the number, infinity or NaN that each bit pattern of a double denotes |
| Domination.DominantRanksFirst | src/ranking.cpp:34-298 | a scorable candidate with evidence at least as good in every field never scores worse than a scorable one, and with a smaller id always ranks first |
| Sorting.SortedUnique | src/scheduler.cpp:191-192 | a sorted permutation is unique, so the sort algorithm does not matter |
| Selection.ComparatorTotalIff | src/ranking.cpp:34-43 | on candidates with distinct ids the comparator is a strict total order if and only if they are comparable |
| Selection.FilterAndRank | src/scheduler.cpp:169-194 | the filtering loop computes the decision, which for comparable survivors is the only one the sort can return |
| Selection.DecisionPartitions | src/scheduler.cpp:176-194 | eligible and disqualified partition the snapshot; eligible is strictly sorted if and only if the survivors are comparable |
| Selection.DecisionIgnoresOrder | src/scheduler.cpp:176-204 | any permutation of the snapshot disqualifies the same ids and, for comparable survivors, gives the same ranking |
| Selection.OrderNeverMattersIff | src/scheduler.cpp:176-204 | every permutation of the snapshot gives the same ranking if and only if the survivors are comparable |
| Selection.NaNPairKeepsOrder | src/ranking.cpp:34-43 | two survivors of which one has a NaN score come out in the order they were listed |
| Selection.NaNCandidate | src/eligibility.cpp:33-184 | for every demand there are two such survivors; listed by id, the one without a score is selected ahead of the one that has one, and listed the other way it is not |
| Selection.WinnerAndFallbacks | src/scheduler.cpp:196-209 | the winner precedes every other eligible candidate if and only if the survivors are comparable; fallbacks are the next entries up to the limit |
| Selection.DominatedNeverWins | src/scheduler.cpp:176-204 | through filter, rank and sort of comparable survivors, a dominated candidate with the larger id is never selected |
| Selection.DominatedNeverWinsIff | src/scheduler.cpp:176-204 | such a candidate, if eligible, is kept from winning in every result the sort may return if and only if the survivors are comparable |
| Selection.DominatedNeverFirstInIdOrder | src/scheduler.cpp:158-204 | from a snapshot in id order such a candidate is never first under a stable insertion sort, comparable survivors or not |
| Publication.SnapshotAscends | src/scheduler.cpp:162-167 | schedule lists the stored candidates in ascending id order |
| Publication.DominatedNeverFirst | src/scheduler.cpp:158-204 | a stored candidate dominated by one with a smaller id is never first in schedule's own listing, whatever the scores |
| Publication.DeliveredIsJoin | src/scheduler.cpp:110-133 | a sequence of publications leaves, per id, the newest generation stored or offered |
| Publication.DeliveryConverges | src/scheduler.cpp:110-133 | reordered or repeated delivery of the same publications leaves the same candidates |
| Publication.PassDecides | src/scheduler.cpp:176-192 | the stepwise filter pass of a schedule call ends in the decision's survivors and, when comparable, its ranking |
| Publication.DecisionIgnoresDelivery | src/scheduler.cpp:158-204 | schedule reaches the same decision for every delivery order; its winner precedes the rest if and only if the survivors are comparable |
| Coding.ByteWriter.PutWord | include/fabric_scheduler/coding.hpp:20-33 | appends the little-endian bytes of a word |
| Coding.ByteWriter.PutText | include/fabric_scheduler/coding.hpp:47-50 | appends a length and the bytes |
| Coding.ByteReader.ReadWord | include/fabric_scheduler/coding.hpp:79-100 | reads a word, or raises truncation without moving |
| Coding.ByteReader.ReadText | include/fabric_scheduler/coding.hpp:109-116 | reads a bounded string, with its two errors |
| Coding.UnLeOfLe | include/fabric_scheduler/coding.hpp:31-33 | a written word reads back |
| Coding.LeOfUnLe | include/fabric_scheduler/coding.hpp:95-100 | a read word writes back |
| Coding.TextRoundTrip | include/fabric_scheduler/coding.hpp:109-116 | a written string reads back exactly when it is within the bound |
| Wire.Write | src/persistence.cpp:29-159 | the encoder appends exactly the encoding of the record |
| Wire.Read | src/persistence.cpp:162-367 | the decoder returns exactly the decoded record, or its error, and leaves the rest |
| Wire.RoundTrip | src/persistence.cpp:29-367 | every encoded record decodes back, the rest untouched, exactly when it passes the decoder's checks |
| Wire.DecSound | src/persistence.cpp:162-367 | whatever the bytes, a decoded record passes every check and consumed as many bytes as its encoding has |
| Wire.Reencodes | src/persistence.cpp:29-367 | a decoded record encodes back to exactly the bytes it was read from if and only if every boolean among them is 0 or 1 |
| Wire.WordAnswers | include/fabric_scheduler/coding.hpp:79-100 | a word above its limit is corrupt and a short input truncated |
| Wire.FlagAnswers | include/fabric_scheduler/coding.hpp:108-108 | any byte but 0 reads as true |
| Wire.SizeAnswers | src/persistence.cpp:16-20 | a string or list above 2^20 is oversized, whatever follows |
| Layout.WrittenNumbers | include/fabric_scheduler/core/types.hpp:10-95 | every enumerator is written as its place in the declaration |
| Layout.DemandLayout | src/persistence.cpp:29-70 | the bytes of a demand, field by field |
| Layout.RequestLayout | src/persistence.cpp:72-78 | the bytes of a request |
| Layout.BindingLayout | src/persistence.cpp:80-94 | the bytes of a device binding |
| Layout.FactorLayout | src/persistence.cpp:96-102 | the bytes of a rank factor |
| Layout.RejectedLayout | src/persistence.cpp:104-109 | the bytes of a rejected alternative |
| Layout.ClaimLayout | src/persistence.cpp:111-116 | the bytes of a claim |
| Layout.EntryLayout | src/persistence.cpp:148-148 | the bytes of a history entry |
| Layout.FingerprintLayout | src/persistence.cpp:118-122 | the bytes of a fingerprint |
| Layout.PlanLayout | src/persistence.cpp:124-153 | the bytes of a plan |
| Layout.IdentityLayout | src/persistence.cpp:155-159 | the bytes of a candidate identity |
| Layout.CandidateLayout | src/persistence.cpp:514-553 | the bytes of a candidate |
| InRange.GoodRequest | src/persistence.cpp:162-233 | the codec's shape and bounds, on the fields of a request: which numbers, paths and localities it can carry, both directions |
| InRange.GoodPlan | src/persistence.cpp:310-356 | the same for a plan |
| InRange.GoodCandidate | src/persistence.cpp:555-635 | the same for a candidate |
| InRange.GoodSnapshot | src/persistence.cpp:440-486 | the same for a snapshot |
| Rewrites.RequestRewrites | src/persistence.cpp:162-233 | whatever bytes decode to a request, writing the request gives those bytes exactly when their booleans are 0 or 1 |
| Rewrites.PlanRewrites | src/persistence.cpp:310-356 | the same for a plan |
| Rewrites.CandidateRewrites | src/persistence.cpp:555-635 | the same for a candidate |
| Records.DemandReads | src/persistence.cpp:29-221 | a demand survives but for its required topology generation |
| Records.RequestReads | src/persistence.cpp:223-233 | a request survives but for its required topology generation |
| Records.BindingReads | src/persistence.cpp:235-253 | a device binding survives whole, signed field included |
| Records.PlanReads | src/persistence.cpp:310-356 | a plan survives whole |
| CandidateRecords.CandidateReads | src/persistence.cpp:555-635 | a candidate survives whole |
| SnapshotChecks.SnapshotIntegrity | src/persistence.cpp:450-502 | the loader's integrity checks, stated on the snapshot: unique ids, valid demands, finite costs, ids below the counter, known candidates, evidence |
| SnapshotChecks.SnapshotReads | src/persistence.cpp:440-490 | the snapshot read back is the snapshot saved, up to required topology generations |
| Persistence.PersistSave | src/persistence.cpp:371-405 | writes header, payload and digest |
| Persistence.PersistLoad | src/persistence.cpp:416-504 | makes the checks in order and returns the snapshot or the first error |
| SavedFiles.LoadOfSave | src/persistence.cpp:371-504 | loading a saved snapshot returns it, for every order of the cancelled set, exactly when all bounds and integrity checks hold |
| SavedFiles.LoadSound | src/persistence.cpp:416-504 | an accepted file holds a record that passes every check, and encodes back to the payload exactly when its booleans are 0 or 1 |
| Rewrites.LoadedRewrites | src/persistence.cpp:416-504 | writing what was loaded from any accepted file gives its very payload exactly when the booleans in it are 0 or 1 |
| Rewrites.InRangeLoads | src/persistence.cpp:371-504 | a snapshot whose numbers and lists are in range and that takes at most 1 GiB loads back if and only if the integrity checks hold |
| FileLayout.SnapshotLayout | src/persistence.cpp:371-388 | the bytes of a snapshot |
| FileLayout.SaveLayout | src/persistence.cpp:390-404 | the bytes of a saved file: header, snapshot, digest |
| FileLayout.SavedStateLayout | src/scheduler.cpp:444-468 | the bytes saved for a scheduler state, in terms of its own fields |
| FileLayout.OpenAnswers | src/persistence.cpp:416-437 | opening a file reports the first thing wrong with it: magic, version, size bound, truncation, digest |
| SavedFiles.OneByteCaught | src/persistence.cpp:416-439 | one altered byte of magic, version, payload or footer, or a grown length, makes the load fail |
| SavedFiles.FlagsIgnored | src/persistence.cpp:425-425 | the flags byte does not matter |
| Digest.ComputeDigest | src/persistence.cpp:407-414 | the loop computes the digest |
| Digest.TimesPrimeInjective | src/persistence.cpp:411-411 | multiplying by the FNV prime is injective modulo 2^64 |
| Digest.OneByteChangesDigest | src/persistence.cpp:407-414 | altering one byte of the input always changes the digest |
| Digest.KnownDigests | src/persistence.cpp:407-414 | the published digests of the empty input and of one zero byte |
| Digest.DigestGrows | src/persistence.cpp:410-411 | a byte is mixed into the low byte before the multiplication by the prime |
| Digest.XorBits | src/persistence.cpp:410-410 | a bit of the exclusive or is set exactly where its operands differ |
| Frames.EncodeFrame | src/protocol.cpp:7-29 | builds the frame or refuses an oversized payload |
| Frames.ReadFrameHeader | src/protocol.cpp:31-50 | checks magic, version, type and length in order |
| Frames.CheckDigest | src/protocol.cpp:52-62 | compares the stored and the computed digest |
| FileLayout.FrameLayout | src/protocol.cpp:7-29 | the bytes of a frame: magic, header, payload, digest of all but the magic |
| FileLayout.HeaderAnswers | src/protocol.cpp:31-50 | reading a header reports the first thing wrong with it: magic, version, type, length |
| Frames.FrameRoundTrip | src/protocol.cpp:7-62 | a frame of a known type within the bound is received as sent |
| Frames.OneByteCaught | src/protocol.cpp:31-62 | one altered byte outside the length field makes the header or the digest check fail |
| Transport.EncodeRequestRecord | src/persistence.cpp:509-509 | appends exactly the bytes of the request, as laid out field by field |
| Transport.DecodeRequestRecord | src/persistence.cpp:510-510 | returns the decoded request, or its error, and leaves the rest |
| Transport.EncodePlanRecord | src/persistence.cpp:511-511 | appends exactly the bytes of the plan, as laid out field by field |
| Transport.DecodePlanRecord | src/persistence.cpp:512-512 | returns the decoded plan, or its error, and leaves the rest |
| Transport.EncodeCandidateRecord | src/persistence.cpp:514-553 | appends exactly the bytes of the candidate, as laid out field by field |
| Transport.DecodeCandidateRecord | src/persistence.cpp:555-635 | returns the decoded candidate, or its error, and leaves the rest |
| Transport.RequestTransports | src/persistence.cpp:509-510 | of a request in range, decoding its bytes with any others after them returns the request and those others exactly when its demand is valid |
| Transport.PlanTransports | src/persistence.cpp:511-512 | of a plan in range, decoding its bytes returns the plan and the rest exactly when its factor costs are finite |
| Transport.CandidateTransports | src/persistence.cpp:514-635 | of a candidate in range, decoding its bytes always returns the candidate and the rest |
| Transport.TransportWeakensTopologyOnly | src/eligibility.cpp:156-162 | after transport the filter verdict changes exactly when it was a topology rejection, and never from eligible |
| Transport.TransportKeepsRank | src/ranking.cpp:240-298 | the rank is the same before and after transport |
| Transport.TransportedDecision | src/persistence.cpp:509-635 | a request and a candidate sent through their codecs rank the same and stay eligible |
| Snapshots.SnapshotIsOk | src/scheduler.cpp:444-468 | a snapshot of a reachable state is well formed and lists exactly the stored candidates, each with its six ids |
| Snapshots.SnapshotRestores | src/scheduler.cpp:470-482 | the maps and the index rebuilt from a snapshot are those it was taken from |
| Snapshots.LatestMapIsMax | src/scheduler.cpp:476-482 | the rebuilt index names the largest plan id of each request, in any order of the plans |
| Snapshots.RestoreRecovers | src/scheduler.cpp:470-498 | restoring re-establishes the invariant with every plan dead and terminal states kept |
| Durability.StoredFiniteIff | src/scheduler.cpp:213-213 | the stored factor costs are finite exactly when the winner is scorable |
| Durability.DurableAlways | src/scheduler.cpp:158-231 | over a run that brings in only scorable candidates, stored costs are finite, and until a recovery every plan's candidate is known |
| Recovery.IntegrityIff | src/persistence.cpp:266-502 | of the loader's integrity checks the scheduler's invariant leaves two open: that selected candidates are known and stored costs finite |
| Recovery.SnapshotLoadsIff | src/persistence.cpp:266-502 | at any point of any run the saved snapshot loads exactly when every plan's candidate is known and no stored cost is NaN |
| Recovery.ScorableRunIsFinite | src/scheduler.cpp:110-231 | while only scorable candidates are ingested no stored cost is NaN |
| Recovery.RecoveredSnapshotRejected | src/scheduler.cpp:491-491 | right after a recovery that brought a plan back the saved snapshot does not load |
| Recovery.NaNWinnerStoresNaN | src/scheduler.cpp:213-213 | storing a winner without a score files a plan with a NaN cost |
| Recovery.NaNPlanSpoilsSaves | src/persistence.cpp:266-266 | from then on, until a recovery, no saved snapshot loads |
| FailedLoads.NaNSaveFails | src/persistence.cpp:266-266 | for every request with a valid demand a fresh scheduler has a run that stores a plan on a NaN candidate and saves a file that does not load |
| FailedLoads.RecoveredSaveFails | src/scheduler.cpp:491-491 | and one that commits the plan and saves a file that loads, recovers from it, and saves a second file that does not |
| Recovery.ReachableSnapshotLoads | src/persistence.cpp:416-504 | before any recovery every saved snapshot within the size bounds loads, if only scorable candidates were ingested |
| Recovery.RecoveryTheorem | src/scheduler.cpp:470-498 | recovery makes every plan dead by a listed step, keeps dead plans, cancellations, ids, counters, the index and the requests but for their required topology, and drops evidence and fences |
| Recovery.SecondRecovery | src/scheduler.cpp:495-497 | a second recovery changes no plan |
| Recovery.CancelledAcrossRecovery | src/scheduler.cpp:265-266 | a request cancelled before the crash is not launched after it |
| Recovery.NoLaunchOfRecovered | src/scheduler.cpp:494-497 | no plan of the old incarnation is launched after a recovery |
| AnyFile.AcceptedFileLaunchesNothing | src/scheduler.cpp:470-498 | whatever file the loader accepts, no plan brought back from it is launched |
| AnyFile.RestoreOkIff | src/scheduler.cpp:470-498 | an accepted snapshot restores to the whole invariant if and only if its histories recover, a condition on the file's histories and counters alone |
| AnyFile.AcceptedFileBreaksHistories | src/persistence.cpp:416-504 | one file with a superseded plan and no history loads, and restoring it breaks the invariant |

## Left out

- Sockets, the accept loop, processes and threads (`src/net.cpp`, `main`): a frame is a byte sequence, and a connection's calls are the steps of `System`.
- The CUDA probe, the worker and inspection tools, the examples and the benchmarks: drivers and fixtures.
- `explain`, `to_string` tables, reasons and descriptions: text with no decision in it. The supersession log entry and the rejection reasons are opaque byte strings.
- Plain getters (`epoch`, `plan_state`, `plan`, `candidate`, `candidate_count`): each returns one field under the lock.
- IEEE rounding: costs are real numbers or NaN, and a finite sum does not overflow. The weights are finite reals. The codec keeps a double as its 64 bits.
- The stored bits of a rank factor: a number in [0, 1] is stored as finite bits and NaN as NaN; which bits is the rounding that is left out.
- What `std::sort` does with a comparator that is no strict weak order: the standard promises nothing, and `System` allows any permutation. The equivalences are stated on `Sorting.Sort`, a stable insertion sort, without claiming that a library orders such survivors the same way.
- Safety.AtMostOnce: counts since the last recovery, because a recovery may reuse the ids of plans the saved file did not hold.
- Adapters that throw: broker, executor, dependency view and policy return. Their answers are arbitrary, except in `Coordinator`.
- Wrap-around of 64-bit counters and generations: they are unbounded. The encoder's theorems require the numbers to fit their width.
- A restore while a commit or handoff is in flight: the code has no defence against it. Runs restore only snapshots a scheduler can have produced; `AnyFile` starts from any other accepted file.
- Frames.OneByteCaught: leaves out the length field, because a receiver then reads a different span and the code does not decide that case.
- SavedFiles.OneByteCaught: leaves out a length that shrinks and bytes after the footer, which the loader does not look at.
- Selection.DominatedNeverWins: requires comparable survivors, and the hop distances to sum below 2^32, because the cast of a larger sum is undefined behaviour in the source.
- Fields the source declares and does not enforce (candidate limits, residency and failure-domain requirements, path feasibility, binding count against the device count, the fingerprint at commit): nothing is claimed about them.
- The one encoder and decoder for all schemas stands for the hand-written pair of each record: the order of fields and checks is that of the source, the division into functions is not.
