/**
  The coordinator's own broker and executor.  The executor authorizes a plan exactly when the plan's authority is
  the one being issued at that moment; the broker numbers its tokens.
*/
module Coordinator {
  import opened Types
  import opened Lifecycle
  import opened SchedulerModel
  import opened Invariants
  import opened System
  import opened SystemInvariant
  import opened Runs
  import opened Transitions

  // --- the broker -----------------------------------------------------------------------------

  // std::to_string.
  function Digits(n: nat): Text {
    if n < 10 then [48 + n] else Digits(n / 10) + [48 + n % 10]
  }

  function Token(n: nat): Text {
    [116, 111, 107, 45] + Digits(n)              // "tok-"
  }

  lemma {:induction false} DigitsInjective(m: nat, n: nat)
    requires Digits(m) == Digits(n)
    ensures m == n
  {
    DigitsNonEmpty(m / 10);
    DigitsNonEmpty(n / 10);
    var x, y := Digits(m), Digits(n);
    assert x[|x| - 1] == y[|y| - 1];
    if m >= 10 && n >= 10 {
      assert x[..|x| - 1] == Digits(m / 10) && y[..|y| - 1] == Digits(n / 10);
      DigitsInjective(m / 10, n / 10);
    }
  }

  lemma DigitsNonEmpty(n: nat)
    ensures Digits(n) != []
  {}

  lemma TokenInjective(m: nat, n: nat)
    requires Token(m) == Token(n)
    ensures m == n
  {
    assert Token(m)[4..] == Digits(m) && Token(n)[4..] == Digits(n);
    DigitsInjective(m, n);
  }

  class InMemoryBroker {
    var failNext: bool
    var nextToken: nat

    constructor ()
      ensures !failNext && nextToken == 0
    {
      failNext, nextToken := false, 0;
    }

    method Commit(claims: seq<ResourceClaim>) returns (r: BrokerAnswer)
      modifies this
      ensures !failNext && nextToken == old(nextToken) + (if r.succeeded then 1 else 0)
      ensures r.succeeded <==> !old(failNext)
      ensures r.succeeded ==> r.token == Token(nextToken)
      ensures r.resourceGeneration == if claims == [] then 1 else claims[0].resourceGeneration
    {
      var generation := if claims == [] then 1 else claims[0].resourceGeneration;
      if failNext {
        failNext := false;
        return BrokerAnswer(false, [], generation);
      }
      nextToken := nextToken + 1;
      return BrokerAnswer(true, Token(nextToken), generation);
    }
  }

  predicate Grants(step: Step) {
    step.BrokerAnswers? && step.answer.succeeded
  }

  // Successful answers among the first k steps.
  function Answers(steps: seq<Step>, k: nat): nat
    requires k <= |steps|
  {
    if k == 0 then 0 else Answers(steps, k - 1) + if Grants(steps[k - 1]) then 1 else 0
  }

  /** All commits of the run go to one in-memory broker. */
  ghost predicate OneBroker(steps: seq<Step>) {
    forall k :: 0 <= k < |steps| && Grants(steps[k]) ==> steps[k].answer.token == Token(Answers(steps, k) + 1)
  }

  // Every granted token is one of the first n, and no two grants share one.
  ghost predicate Numbered(granted: multiset<Grant>, n: nat) {
    && (forall g :: g in granted ==> exists m :: 0 < m <= n && g.1 == Token(m))
    && (forall g, h :: g in granted && h in granted && g.1 == h.1 ==> g == h)
  }

  lemma GrantsFrame(y: Sys, step: Step)
    requires Enabled(y, step) && !step.BrokerAnswers?
    ensures Apply(y, step).granted == y.granted
  {}

  lemma GrantNumbered(granted: multiset<Grant>, n: nat, c: nat)
    requires Numbered(granted, n)
    ensures Numbered(granted + multiset{(c, Token(n + 1))}, n + 1)
  {
    var g := (c, Token(n + 1));
    forall h | h in granted ensures h.1 != g.1 {
      var m :| 0 < m <= n && h.1 == Token(m);
      if h.1 == g.1 { TokenInjective(m, n + 1); }
    }
  }

  lemma AnswerNumbered(y: Sys, c: nat, a: BrokerAnswer, n: nat)
    requires c in y.calls && y.calls[c].CommitAsked? && Numbered(y.granted, n) && (a.succeeded ==> a.token == Token(n + 1))
    ensures Numbered(Answered(y, c, a).granted, if a.succeeded then n + 1 else n)
  {
    if a.succeeded {
      assert a.token != [];
      GrantNumbered(y.granted, n, c);
    }
  }

  lemma StepNumbered(y: Sys, step: Step, n: nat)
    requires Enabled(y, step) && Numbered(y.granted, n) && (Grants(step) ==> step.answer.token == Token(n + 1))
    ensures Numbered(Apply(y, step).granted, if Grants(step) then n + 1 else n)
  {
    if step.BrokerAnswers? { AnswerNumbered(y, step.call, step.answer, n); } else { GrantsFrame(y, step); }
  }

  /** One token is granted to one call only; with the ledger, it is returned or released once in the whole run. */
  lemma {:induction false} TokensUnique(ys: seq<Sys>, steps: seq<Step>, k: nat)
    requires IsRun(ys, steps) && OneBroker(steps) && ys[0].granted == multiset{} && k < |ys|
    ensures Numbered(ys[k].granted, Answers(steps, k))
  {
    if k > 0 {
      TokensUnique(ys, steps, k - 1);
      assert StepAt(ys, steps, k - 1);
      StepNumbered(ys[k - 1], steps[k - 1], Answers(steps, k - 1));
    }
  }

  // --- the executor ---------------------------------------------------------------------------

  /** The executor authorizes exactly the plans of the authority now being issued. */
  ghost predicate CurrentAuthority(y: Sys, step: Step) {
    step.ExecutorAnswers? && step.call in y.calls && y.calls[step.call].HandoffAsked? ==>
      (step.handoff.authorized <==> y.calls[step.call].sent.authorityGeneration == y.sched.authority)
  }

  /** A handoff in flight was sent under its plan's authority; if it was denied, that authority has passed. */
  ghost predicate SentAt(y: Sys, c: nat) {
    c in y.calls ==>
      match y.calls[c]
      case HandoffAsked(id, sent) =>
        id in y.sched.plans && sent.authorityGeneration == y.sched.plans[id].authorityGeneration <= y.sched.authority
      case HandoffAnswered(id, h) =>
        && id in y.sched.plans && y.sched.plans[id].authorityGeneration <= y.sched.authority
        && (!h.authorized ==> y.sched.plans[id].authorityGeneration < y.sched.authority)
      case _ => true
  }

  ghost predicate SentOk(y: Sys) {
    forall c {:trigger SentAt(y, c)} :: SentAt(y, c)
  }

  // No handoff call is opened or answered.
  ghost predicate HandoffsSame(y: Sys, z: Sys) {
    forall c :: c in z.calls && (z.calls[c].HandoffAsked? || z.calls[c].HandoffAnswered?) ==> c in y.calls && z.calls[c] == y.calls[c]
  }

  lemma CallHandoffs(y: Sys, c: nat)
    ensures c in y.calls && y.calls[c].CommitAnswered? ==> HandoffsSame(y, CommitReturned(y, c))
    ensures c in y.calls && y.calls[c].HandoffAnswered? ==> HandoffsSame(y, HandoffReturned(y, c))
  {}

  lemma ExternalHandoffs(y: Sys, step: Step)
    requires Enabled(y, step) && IsExternal(step) && !step.HandoffBegins? && !step.ExecutorAnswers?
    ensures HandoffsSame(y, Apply(y, step))
  {
    match step
    case CommitFinishes(c) => CallHandoffs(y, c);
    case HandoffFinishes(c) => CallHandoffs(y, c);
    case _ =>
  }

  lemma HandoffsFrame(y: Sys, step: Step)
    requires Enabled(y, step) && !step.HandoffBegins? && !step.ExecutorAnswers?
    ensures HandoffsSame(y, Apply(y, step))
  {
    if IsExternal(step) { ExternalHandoffs(y, step); } else if IsDirect(step) {} else { OtherHandoffs(y, step); }
  }

  lemma OtherHandoffs(y: Sys, step: Step)
    requires Enabled(y, step) && !IsExternal(step) && !IsDirect(step)
    ensures HandoffsSame(y, Apply(y, step))
  {}

  lemma SentStays(y: Sys, z: Sys)
    requires SentOk(y) && HandoffsSame(y, z) && Forward(y, z)
    ensures SentOk(z)
  {
    forall c ensures SentAt(z, c) {
      assert SentAt(y, c);
      if c in z.calls && (z.calls[c].HandoffAsked? || z.calls[c].HandoffAnswered?) {
        assert EvolvedAt(y.sched.plans, z.sched.plans, z.calls[c].plan);
      }
    }
  }

  lemma SentOpens(y: Sys, id: nat)
    requires Inv(y) && SentOk(y) && MayHandOff(y.sched, id)
    ensures SentOk(HandoffOpened(y, id))
  {
    var z := HandoffOpened(y, id);
    HandoffBeginsStep(y, id);
    forall c ensures SentAt(z, c) {
      assert SentAt(y, c);
      if c in y.calls && c in z.calls && (z.calls[c].HandoffAsked? || z.calls[c].HandoffAnswered?) {
        assert EvolvedAt(y.sched.plans, z.sched.plans, z.calls[c].plan);
      }
    }
  }

  lemma SentAnswers(y: Sys, c: nat, h: ExecutionHandoff)
    requires SentOk(y) && c in y.calls && y.calls[c].HandoffAsked? && CurrentAuthority(y, ExecutorAnswers(c, h))
    ensures SentOk(y.(calls := y.calls[c := HandoffAnswered(y.calls[c].plan, h)]))
  {
    var z := y.(calls := y.calls[c := HandoffAnswered(y.calls[c].plan, h)]);
    assert SentAt(y, c);
    forall d ensures SentAt(z, d) { assert SentAt(y, d); }
  }

  lemma SentStep(y: Sys, step: Step)
    requires Inv(y) && SentOk(y) && Enabled(y, step) && CurrentAuthority(y, step)
    ensures SentOk(Apply(y, step))
  {
    if step.HandoffBegins? {
      if MayHandOff(y.sched, step.plan) { SentOpens(y, step.plan); }
    } else if step.ExecutorAnswers? {
      SentAnswers(y, step.call, step.handoff);
    } else if step.DoRestore? {
      forall c ensures SentAt(Apply(y, step), c) {}
    } else {
      StepKeeps(y, step);
      HandoffsFrame(y, step);
      SentStays(y, Apply(y, step));
    }
  }

  lemma SentNext(ys: seq<Sys>, steps: seq<Step>, k: nat)
    requires IsRun(ys, steps) && k < |steps| && Inv(ys[k]) && SentOk(ys[k]) && CurrentAuthority(ys[k], steps[k])
    ensures SentOk(ys[k + 1])
  {
    assert StepAt(ys, steps, k);
    SentStep(ys[k], steps[k]);
  }

  lemma {:induction false} SentAlways(ys: seq<Sys>, steps: seq<Step>, k: nat)
    requires IsRun(ys, steps) && Inv(ys[0]) && SentOk(ys[0]) && k < |ys|
    requires forall i :: 0 <= i < |steps| ==> CurrentAuthority(ys[i], steps[i])
    ensures SentOk(ys[k])
  {
    if k > 0 {
      SentAlways(ys, steps, k - 1);
      InvAlways(ys, steps, k - 1);
      SentNext(ys, steps, k - 1);
    }
  }

  lemma StartSent(config: SchedulerModel.Config, authority: nat)
    ensures SentOk(Start(config, authority))
  {
    forall c ensures SentAt(Start(config, authority), c) {}
  }

  /** With the coordinator's executor a denied handoff never forces a plan: the executor only denies a plan whose
      authority has passed, and the second block then returns before it would force the state.  So a terminal
      plan is left as it is by every step but a diverging revalidation of it. */
  lemma OnlyRevalidationReopens(config: SchedulerModel.Config, authority: nat, ys: seq<Sys>, steps: seq<Step>, k: nat, id: nat)
    requires IsRun(ys, steps) && ys[0] == Start(config, authority) && k < |steps|
    requires forall i :: 0 <= i < |steps| ==> CurrentAuthority(ys[i], steps[i])
    requires !steps[k].DoRestore? && id in ys[k].sched.plans && IsTerminal(ys[k].sched.plans[id].state)
    ensures id in ys[k + 1].sched.plans
    ensures ys[k + 1].sched.plans[id] != ys[k].sched.plans[id] <==>
      steps[k].DoRevalidate? && steps[k].plan == id && ys[k].sched.plans[id].generations != steps[k].current
  {
    StartOk(config, authority);
    StartSent(config, authority);
    InvAlways(ys, steps, k);
    SentAlways(ys, steps, k);
    assert StepAt(ys, steps, k);
    TerminalFrozenIff(ys[k], steps[k], id);
    if steps[k].HandoffFinishes? { DenialNeverForces(ys[k], steps[k].call, id); }
  }

  lemma DenialNeverForces(y: Sys, c: nat, id: nat)
    requires SentOk(y) && c in y.calls && y.calls[c].HandoffAnswered?
    ensures !Forces(y, HandoffFinishes(c), id)
  {
    assert SentAt(y, c);
  }
}
