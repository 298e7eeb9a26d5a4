/** The guarded placement lifecycle and the two ways a stored plan changes state. */
module Lifecycle {
  import opened Types

  const MAX_HISTORY: nat := 64

  predicate IsTerminal(s: LifecycleState) {
    s == Superseded || s == Cancelled || s == Failed || s == Retired
  }

  // Reachable from every state that is not terminal.
  predicate Stops(to: LifecycleState) {
    to == Cancelled || to == Superseded || to == Failed
  }

  // The explicit transition table.
  predicate CanTransition(from: LifecycleState, to: LifecycleState) {
    from == to ||
    match from
    case Requested => to == Discovering || Stops(to)
    case Discovering => to == FilteringState || to == RevalidationRequired || Stops(to)
    case FilteringState => to == RankingState || to == RevalidationRequired || Stops(to)
    case RankingState => to == PlanReady || to == RevalidationRequired || Stops(to)
    case PlanReady => to == AwaitingResourceCommit || to == RevalidationRequired || Stops(to)
    case AwaitingResourceCommit => to == Committed || to == RevalidationRequired || Stops(to)
    case Committed => to == AwaitingExecution || to == RevalidationRequired || Stops(to)
    case AwaitingExecution => to == Active || to == RevalidationRequired || Stops(to)
    case Active => to == RevalidationRequired || to == Retired || Stops(to)
    case RevalidationRequired =>
      || to == PlanReady || to == FilteringState || to == RankingState || to == AwaitingResourceCommit
      || to == Retired || Stops(to)
    case Superseded | Cancelled | Failed => to == Retired
    case Retired => false
  }

  /** A live plan may still be committed, handed off or running; a dead one may not, and the scheduler has
      no operation that brings it back. */
  predicate IsLive(s: LifecycleState) {
    s == PlanReady || s == AwaitingResourceCommit || s == Committed || s == AwaitingExecution || s == Active
  }

  predicate IsDead(s: LifecycleState) {
    IsTerminal(s) || s == RevalidationRequired
  }

  // The states in which a plan holds, or is about to hold, an external commitment.
  predicate IsEngaged(s: LifecycleState) {
    s == AwaitingResourceCommit || s == Committed || s == AwaitingExecution || s == Active
  }

  predicate NeedsEvidence(s: LifecycleState) {
    s == Committed || s == AwaitingExecution || s == Active
  }

  function Append(h: seq<HistoryEntry>, e: HistoryEntry): seq<HistoryEntry> {
    if |h| < MAX_HISTORY then h + [e] else h
  }

  function Record(p: PlacementPlan, to: LifecycleState, ordinal: nat): PlacementPlan {
    p.(state := to, stateHistory := Append(p.stateHistory, HistoryEntry(to, ordinal)))
  }

  // force_state: no table lookup.
  function Force(p: PlacementPlan, to: LifecycleState, ordinal: nat): PlacementPlan {
    if p.state == to then p else Record(p, to, ordinal)
  }

  // advance_local: throws when the table does not list the step.
  function Advance(p: PlacementPlan, to: LifecycleState, ordinal: nat): Result<PlacementPlan> {
    if p.state == to then Ok(p)
    else if !CanTransition(p.state, to) then Err(IllegalLifecycleTransition)
    else Ok(Record(p, to, ordinal))
  }

  /** placement_advance, the public form: it draws an ordinal of its own when it is given none, and its history
      has no limit. */
  method PlacementAdvance(p: PlacementPlan, to: LifecycleState, eventOrdinal: nat, nextOrdinal: nat)
    returns (r: Result<PlacementPlan>, next: nat)
    ensures r.Ok? <==> CanTransition(p.state, to)
    ensures r.Err? ==> r.error == IllegalLifecycleTransition && next == nextOrdinal
    ensures |p.stateHistory| < MAX_HISTORY ==> r == Advance(p, to, if eventOrdinal != 0 then eventOrdinal else nextOrdinal)
    ensures next == nextOrdinal + if r.Ok? && p.state != to && eventOrdinal == 0 then 1 else 0
  {
    next := nextOrdinal;
    if p.state == to { return Ok(p), next; }
    if !CanTransition(p.state, to) { return Err(IllegalLifecycleTransition), next; }
    var ordinal := eventOrdinal;
    if eventOrdinal == 0 {
      ordinal := next;
      next := next + 1;
    }
    return Ok(p.(state := to, stateHistory := p.stateHistory + [HistoryEntry(to, ordinal)])), next;
  }

  // --- history --------------------------------------------------------------------------------

  ghost predicate Increasing(h: seq<HistoryEntry>) {
    forall i, j :: 0 <= i < j < |h| ==> h[i].ordinal < h[j].ordinal
  }

  ghost predicate Below(h: seq<HistoryEntry>, next: nat) {
    forall i :: 0 <= i < |h| ==> h[i].ordinal < next
  }

  /** A plan's own history: bounded, strictly increasing, below the next ordinal, and ending in the plan's
      state while it is still being written. */
  ghost predicate HistoryOk(h: seq<HistoryEntry>, state: LifecycleState, next: nat) {
    && 0 < |h| <= MAX_HISTORY
    && Increasing(h) && Below(h, next)
    && (|h| < MAX_HISTORY ==> h[|h| - 1].state == state)
  }

  ghost predicate Apart(h: seq<HistoryEntry>, k: seq<HistoryEntry>) {
    forall i, j :: 0 <= i < |h| && 0 <= j < |k| ==> h[i].ordinal != k[j].ordinal
  }

  lemma AppendKeepsHistory(h: seq<HistoryEntry>, state: LifecycleState, e: HistoryEntry, next: nat)
    requires HistoryOk(h, state, next) && e.ordinal >= next
    ensures HistoryOk(Append(h, e), e.state, e.ordinal + 1)
  {}

  // --- the legal-step rank --------------------------------------------------------------------

  /** Position along the lifecycle; every facade step that is not an exception climbs it. */
  function Position(s: LifecycleState): nat {
    match s
    case Requested => 0 case Discovering => 1 case FilteringState => 2 case RankingState => 3
    case PlanReady => 4 case AwaitingResourceCommit => 5 case Committed => 6 case AwaitingExecution => 7
    case Active => 8 case RevalidationRequired => 9
    case Superseded => 10 case Cancelled => 10 case Failed => 10 case Retired => 11
  }
}
