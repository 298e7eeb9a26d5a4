/** What a commit or a handoff call brings back to its caller: the answer that its own broker or executor call
    got, and nothing else. */
module Answers {
  import opened Types
  import opened SchedulerModel
  import opened Invariants
  import opened System
  import opened SystemInvariant
  import opened Runs
  import opened Safety

  // --- commit ---------------------------------------------------------------------------------

  // What a commit call may return after answer a: the grant whole, or a failure without a token.
  predicate CommitOutcome(a: BrokerAnswer, granted: bool, r: CommitResult) {
    && r.succeeded == granted && r.resourceGeneration == a.resourceGeneration
    && r.token == if granted then a.token else []
  }

  lemma AnswerStands(y: Sys, c: nat, a: BrokerAnswer)
    requires Inv(y) && c in y.calls && y.calls[c].CommitAsked?
    ensures Stands(Answered(y, c, a), c, CommitAnswered(y.calls[c].plan, y.calls[c].claims, a))
  {
    assert CallAt(y, c);
  }

  lemma AnswerHeld(ys: seq<Sys>, steps: seq<Step>, i: nat, c: nat, a: BrokerAnswer)
    requires IsRun(ys, steps) && i < |steps| && Inv(ys[i]) && steps[i] == BrokerAnswers(c, a)
    ensures c in ys[i].calls && ys[i].calls[c].CommitAsked?
    ensures Stands(ys[i + 1], c, CommitAnswered(ys[i].calls[c].plan, ys[i].calls[c].claims, a))
  {
    assert StepAt(ys, steps, i);
    AnswerStands(ys[i], c, a);
  }

  lemma CommitFinishing(ys: seq<Sys>, steps: seq<Step>, j: nat, c: nat)
    requires IsRun(ys, steps) && j < |steps| && steps[j] == CommitFinishes(c)
    ensures c in ys[j].calls && ys[j].calls[c].CommitAnswered?
  {
    assert StepAt(ys, steps, j);
  }

  lemma AnswerTaken(ys: seq<Sys>, steps: seq<Step>, i: nat, j: nat, c: nat, a: BrokerAnswer)
    requires IsRun(ys, steps) && Inv(ys[0]) && i < j < |steps| && steps[i] == BrokerAnswers(c, a) && steps[j] == CommitFinishes(c)
    ensures c in ys[i].calls && ys[i].calls[c].CommitAsked?
    ensures c in ys[j].calls && ys[j].calls[c] == CommitAnswered(ys[i].calls[c].plan, ys[i].calls[c].claims, a)
  {
    InvAlways(ys, steps, i);
    AnswerHeld(ys, steps, i, c, a);
    CommitFinishing(ys, steps, j, c);
    StandsAlways(ys, steps, i + 1, j, c, CommitAnswered(ys[i].calls[c].plan, ys[i].calls[c].claims, a));
  }

  /** In every run a commit returns the token and the resource generation of its own broker answer when it
      succeeds, which it does exactly when the broker granted and the plan still waits; every other result carries
      that generation and no token. */
  lemma CommitReturnsItsGrant(ys: seq<Sys>, steps: seq<Step>, i: nat, j: nat, c: nat, a: BrokerAnswer)
    requires IsRun(ys, steps) && Inv(ys[0]) && i < j < |steps| && steps[i] == BrokerAnswers(c, a) && steps[j] == CommitFinishes(c)
    ensures c in ys[i].calls && ys[i].calls[c].CommitAsked? && c in ys[j].calls && ys[j].calls[c].CommitAnswered?
    ensures ys[i].calls[c].plan in ys[j].sched.plans
    ensures CommitOutcome(a, a.succeeded && ys[j].sched.plans[ys[i].calls[c].plan].state == AwaitingResourceCommit,
                          CommitResultOf(ys[j], c))
  {
    AnswerTaken(ys, steps, i, j, c, a);
    InvAlways(ys, steps, j);
    StaleIsStateTest(ys[j], c);
  }

  /** And the token that is not returned is released: a commit that ends without success on a granted answer goes on
      to release that answer's token, and no other commit releases anything. */
  lemma CommitReleasesItsGrant(ys: seq<Sys>, steps: seq<Step>, i: nat, j: nat, c: nat, a: BrokerAnswer)
    requires IsRun(ys, steps) && Inv(ys[0]) && i < j < |steps| && steps[i] == BrokerAnswers(c, a) && steps[j] == CommitFinishes(c)
    ensures c in ys[i].calls && ys[i].calls[c].CommitAsked? && c in ys[j].calls && ys[j].calls[c].CommitAnswered?
    ensures if a.succeeded && a.token != [] && !CommitResultOf(ys[j], c).succeeded
            then c in ys[j + 1].calls && ys[j + 1].calls[c] == Releasing(a.token)
            else c !in ys[j + 1].calls
  {
    AnswerTaken(ys, steps, i, j, c, a);
    InvAlways(ys, steps, j);
    assert StepAt(ys, steps, j);
    StaleIsStateTest(ys[j], c);
  }

  // --- handoff --------------------------------------------------------------------------------

  lemma VerdictHeld(ys: seq<Sys>, steps: seq<Step>, i: nat, c: nat, h: ExecutionHandoff)
    requires IsRun(ys, steps) && i < |steps| && Inv(ys[i]) && steps[i] == ExecutorAnswers(c, h)
    ensures c in ys[i].calls && ys[i].calls[c].HandoffAsked?
    ensures Stands(ys[i + 1], c, HandoffAnswered(ys[i].calls[c].plan, h))
  {
    assert StepAt(ys, steps, i) && CallAt(ys[i], c);
  }

  lemma HandoffFinishing(ys: seq<Sys>, steps: seq<Step>, j: nat, c: nat)
    requires IsRun(ys, steps) && j < |steps| && steps[j] == HandoffFinishes(c)
    ensures c in ys[j].calls && ys[j].calls[c].HandoffAnswered?
  {
    assert StepAt(ys, steps, j);
  }

  lemma HandoffTaken(ys: seq<Sys>, steps: seq<Step>, i: nat, j: nat, c: nat, h: ExecutionHandoff)
    requires IsRun(ys, steps) && Inv(ys[0]) && i < j < |steps| && steps[i] == ExecutorAnswers(c, h) && steps[j] == HandoffFinishes(c)
    ensures c in ys[i].calls && ys[i].calls[c].HandoffAsked?
    ensures c in ys[j].calls && ys[j].calls[c] == HandoffAnswered(ys[i].calls[c].plan, h)
  {
    InvAlways(ys, steps, i);
    VerdictHeld(ys, steps, i, c, h);
    HandoffFinishing(ys, steps, j, c);
    StandsAlways(ys, steps, i + 1, j, c, HandoffAnswered(ys[i].calls[c].plan, h));
  }

  // The ids and generations of an answer.
  predicate SameExecution(h: ExecutionHandoff, r: ExecutionHandoff) {
    && r.executionId == h.executionId && r.executionGeneration == h.executionGeneration
    && r.attemptId == h.attemptId && r.attemptGeneration == h.attemptGeneration
    && r.authorityGeneration == h.authorityGeneration
  }

  /** In every run a handoff that does not raise returns the execution and the attempt of its own executor answer,
      authorized exactly when the executor authorized it and the plan still awaits execution. */
  lemma HandoffReturnsItsAnswer(ys: seq<Sys>, steps: seq<Step>, i: nat, j: nat, c: nat, h: ExecutionHandoff)
    requires IsRun(ys, steps) && Inv(ys[0]) && i < j < |steps| && steps[i] == ExecutorAnswers(c, h) && steps[j] == HandoffFinishes(c)
    ensures c in ys[i].calls && ys[i].calls[c].HandoffAsked? && c in ys[j].calls && ys[j].calls[c].HandoffAnswered?
    ensures ys[i].calls[c].plan in ys[j].sched.plans
    ensures var r := HandoffResult(ys[j], c);
      && (r.Err? ==> r == Err(IllegalLifecycleTransition) && h.authorized)
      && (r.Ok? ==> SameExecution(h, r.value))
      && (r.Ok? && r.value.authorized <==> h.authorized && ys[j].sched.plans[ys[i].calls[c].plan].state == AwaitingExecution)
  {
    HandoffTaken(ys, steps, i, j, c, h);
    InvAlways(ys, steps, j);
    HandoffRaisesIff(ys[j], c);
    ResultIsAnswer(ys[j], c);
  }

  lemma ResultIsAnswer(y: Sys, c: nat)
    requires Inv(y) && c in y.calls && y.calls[c].HandoffAnswered?
    ensures var r, h := HandoffResult(y, c), y.calls[c].handoff;
      if r.Ok? then SameExecution(h, r.value) else r == Err(IllegalLifecycleTransition) && h.authorized
  {
    assert CallAt(y, c) && PlanAt(y.sched, y.calls[c].plan);
  }
}
