/** What every interleaving keeps: the state invariant, the correspondence between waiting plans and calls in
    flight, the at-most-once records, and the ledger of broker grants. */
module SystemInvariant {
  import opened Types
  import opened Demand
  import opened Lifecycle
  import opened SchedulerModel
  import opened Invariants
  import opened System

  // --- the clauses ----------------------------------------------------------------------------

  predicate OnCommit(call: Call, id: nat) {
    (call.CommitAsked? || call.CommitAnswered?) && call.plan == id
  }

  predicate OnHandoff(call: Call, id: nat) {
    (call.HandoffAsked? || call.HandoffAnswered?) && call.plan == id
  }

  predicate HandedOrDead(s: LifecycleState) {
    s == AwaitingExecution || IsDead(s)
  }

  // The executor was shown the plan as it was when the handoff began.
  predicate ShownAs(p: PlacementPlan, sent: PlacementPlan) {
    sent.state == Committed && sent.hasCommitmentEvidence && SameOrigin(sent, p)
  }

  ghost predicate CallOk(s: Sched, call: Call) {
    match call
    case Filtering(r, _, _, _) => DemandError(r.demand).None?
    case CommitAsked(id, claims) => id in s.plans && s.plans[id].state != PlanReady && claims == s.plans[id].claims
    case CommitAnswered(id, claims, _) => id in s.plans && s.plans[id].state != PlanReady && claims == s.plans[id].claims
    case HandoffAsked(id, sent) => id in s.plans && HandedOrDead(s.plans[id].state) && ShownAs(s.plans[id], sent)
    case HandoffAnswered(id, _) => id in s.plans && HandedOrDead(s.plans[id].state)
    case Releasing(t) => t != []
    case _ => true
  }

  ghost predicate CallAt(y: Sys, c: nat) {
    c in y.calls ==> c < y.nextCall && CallOk(y.sched, y.calls[c])
  }

  // Two calls in the same phase of the same plan are the same call.
  ghost predicate OneAt(y: Sys, a: nat, b: nat) {
    a in y.calls && b in y.calls ==>
      && (forall id :: OnCommit(y.calls[a], id) && OnCommit(y.calls[b], id) ==> a == b)
      && (forall id :: OnHandoff(y.calls[a], id) && OnHandoff(y.calls[b], id) ==> a == b)
  }

  // A waiting plan has a call in flight that is working on it.
  ghost predicate WaitedAt(y: Sys, id: nat) {
    id in y.sched.plans ==>
      && (y.sched.plans[id].state == AwaitingResourceCommit ==> exists c :: c in y.calls && OnCommit(y.calls[c], id))
      && (y.sched.plans[id].state == AwaitingExecution ==> exists c :: c in y.calls && OnHandoff(y.calls[c], id))
  }

  ghost predicate OnceAt(y: Sys, id: nat) {
    && y.sent[id] <= 1 && (y.sent[id] == 1 ==> id in y.sched.plans && y.sched.plans[id].state != PlanReady)
    && y.launched[id] <= 1
    && (y.launched[id] == 1 ==> id in y.sched.plans && (y.sched.plans[id].state == Active || IsDead(y.sched.plans[id].state)))
  }

  predicate Holds(call: Call, token: Text) {
    match call
    case CommitAnswered(_, _, a) => a.succeeded && a.token == token
    case Releasing(t) => t == token
    case _ => false
  }

  // 1 when the call of the grant is still in flight with its token.
  function Held(y: Sys, g: Grant): nat {
    if g.1 != [] && g.0 in y.calls && Holds(y.calls[g.0], g.1) then 1 else 0
  }

  ghost predicate GrantAt(y: Sys, g: Grant) {
    && y.granted[g] == y.returned[g] + y.released[g] + Held(y, g)
    && y.granted[g] <= 1
    && (y.granted[g] == 1 ==> g.0 < y.nextCall && g.1 != [] && !(g.0 in y.calls && y.calls[g.0].CommitAsked?))
  }

  ghost predicate CallsOk(y: Sys) {
    && (forall c {:trigger CallAt(y, c)} :: CallAt(y, c))
    && (forall a, b {:trigger OneAt(y, a, b)} :: OneAt(y, a, b))
    && (forall id {:trigger WaitedAt(y, id)} :: WaitedAt(y, id))
  }

  ghost predicate OnceOk(y: Sys) {
    forall id {:trigger OnceAt(y, id)} :: OnceAt(y, id)
  }

  ghost predicate LedgerOk(y: Sys) {
    forall g {:trigger GrantAt(y, g)} :: GrantAt(y, g)
  }

  ghost predicate Inv(y: Sys) {
    SchedOk(y.sched) && CallsOk(y) && OnceOk(y) && LedgerOk(y)
  }

  // --- one step, seen from the calls ----------------------------------------------------------

  /** Whatever a step does to call c, a plan that waits afterwards is waited for: by c, or by the call that
      waited before; and a plan becomes Active only through the call that hands it off. */
  ghost predicate WaitKept(y: Sys, z: Sys, c: nat, id: nat) {
    id in z.sched.plans ==>
      && (z.sched.plans[id].state == AwaitingResourceCommit ==>
            || (c in z.calls && OnCommit(z.calls[c], id))
            || (id in y.sched.plans && y.sched.plans[id].state == AwaitingResourceCommit
                && !(c in y.calls && OnCommit(y.calls[c], id))))
      && (z.sched.plans[id].state == AwaitingExecution ==>
            || (c in z.calls && OnHandoff(z.calls[c], id))
            || (id in y.sched.plans && y.sched.plans[id].state == AwaitingExecution
                && !(c in y.calls && OnHandoff(y.calls[c], id))))
      && (z.sched.plans[id].state == Active ==>
            || (id in y.sched.plans && y.sched.plans[id].state == Active)
            || (c in y.calls && OnHandoff(y.calls[c], id)))
  }

  ghost predicate OthersSame(y: Sys, z: Sys, c: nat) {
    forall d :: d != c ==> (d in z.calls <==> d in y.calls) && (d in y.calls ==> z.calls[d] == y.calls[d])
  }

  // A call enters a phase on a plan only by taking the plan out of the state before it.
  ghost predicate EntersFresh(y: Sys, z: Sys, c: nat) {
    c in z.calls ==>
      && (forall id :: OnCommit(z.calls[c], id) ==>
            (c in y.calls && OnCommit(y.calls[c], id)) || (id in y.sched.plans && y.sched.plans[id].state == PlanReady))
      && (forall id :: OnHandoff(z.calls[c], id) ==>
            (c in y.calls && OnHandoff(y.calls[c], id)) || (id in y.sched.plans && y.sched.plans[id].state == Committed))
  }

  ghost predicate Touches(y: Sys, z: Sys, c: nat) {
    && Evolves(y.sched.plans, z.sched.plans) && z.nextCall >= y.nextCall
    && OthersSame(y, z, c) && CallAt(z, c) && EntersFresh(y, z, c)
    && forall id {:trigger WaitKept(y, z, c, id)} :: WaitKept(y, z, c, id)
  }

  lemma CallStays(y: Sys, z: Sys, c: nat, d: nat)
    requires CallsOk(y) && Touches(y, z, c)
    ensures CallAt(z, d)
  {
    if d != c && d in y.calls {
      assert CallAt(y, d);
      var call := y.calls[d];
      if call.CommitAsked? || call.CommitAnswered? || call.HandoffAsked? || call.HandoffAnswered? {
        assert EvolvedAt(y.sched.plans, z.sched.plans, call.plan);
        assert WaitKept(y, z, c, call.plan) && OneAt(y, c, d);
      }
    }
  }

  lemma OneStays(y: Sys, z: Sys, c: nat, a: nat, b: nat)
    requires CallsOk(y) && Touches(y, z, c)
    ensures OneAt(z, a, b)
  {
    assert OneAt(y, a, b) && CallAt(y, a) && CallAt(y, b);
  }

  lemma WaitedStays(y: Sys, z: Sys, c: nat, id: nat)
    requires CallsOk(y) && Touches(y, z, c)
    ensures WaitedAt(z, id)
  {
    assert WaitKept(y, z, c, id) && WaitedAt(y, id);
    if id in z.sched.plans && z.sched.plans[id].state == AwaitingResourceCommit && !(c in z.calls && OnCommit(z.calls[c], id)) {
      var d :| d in y.calls && OnCommit(y.calls[d], id);
      assert d in z.calls && OnCommit(z.calls[d], id);
    }
    if id in z.sched.plans && z.sched.plans[id].state == AwaitingExecution && !(c in z.calls && OnHandoff(z.calls[c], id)) {
      var d :| d in y.calls && OnHandoff(y.calls[d], id);
      assert d in z.calls && OnHandoff(z.calls[d], id);
    }
  }

  lemma TouchKeepsCalls(y: Sys, z: Sys, c: nat)
    requires CallsOk(y) && Touches(y, z, c)
    ensures CallsOk(z)
  {
    forall d ensures CallAt(z, d) { CallStays(y, z, c, d); }
    forall a, b ensures OneAt(z, a, b) { OneStays(y, z, c, a, b); }
    forall id ensures WaitedAt(z, id) { WaitedStays(y, z, c, id); }
  }

  // --- one step, seen from the records --------------------------------------------------------

  lemma OnceStays(y: Sys, z: Sys)
    requires OnceOk(y) && Evolves(y.sched.plans, z.sched.plans) && z.sent == y.sent && z.launched == y.launched
    ensures OnceOk(z)
  {
    forall id ensures OnceAt(z, id) {
      assert OnceAt(y, id) && EvolvedAt(y.sched.plans, z.sched.plans, id);
    }
  }

  /** The ledger is untouched and call c neither gains nor loses a token, nor is about to ask for one anew. */
  lemma LedgerStays(y: Sys, z: Sys, c: nat)
    requires LedgerOk(y) && OthersSame(y, z, c) && z.nextCall >= y.nextCall
    requires z.granted == y.granted && z.returned == y.returned && z.released == y.released
    requires forall t: Text :: t != [] ==> ((c in z.calls && Holds(z.calls[c], t)) <==> (c in y.calls && Holds(y.calls[c], t)))
    requires c in z.calls && z.calls[c].CommitAsked? ==> c >= y.nextCall || (c in y.calls && y.calls[c].CommitAsked?)
    ensures LedgerOk(z)
  {
    forall g ensures GrantAt(z, g) {
      assert GrantAt(y, g);
    }
  }

  // --- each kind of step ----------------------------------------------------------------------

  /** What only moves one way, whatever the step. */
  ghost predicate Forward(y: Sys, z: Sys) {
    && Evolves(y.sched.plans, z.sched.plans) && y.sched.epoch <= z.sched.epoch && y.sched.authority <= z.sched.authority
    && y.sched.candidates.Keys <= z.sched.candidates.Keys && y.sched.cancelled <= z.sched.cancelled
    && y.fenced <= z.fenced && y.nextCall <= z.nextCall
  }

  lemma SamePlansEvolve(plans: map<nat, PlacementPlan>)
    ensures Evolves(plans, plans) && OnlyKills(plans, plans)
  {
    forall id ensures EvolvedAt(plans, plans, id) && KilledAt(plans, plans, id) {}
  }

  lemma NextCallUnused(y: Sys)
    requires CallsOk(y)
    ensures y.nextCall !in y.calls
  {
    assert CallAt(y, y.nextCall);
  }

  /** A step of the scheduler alone, which at most kills plans. */
  lemma SchedStep(y: Sys, t: Sched)
    requires Inv(y) && SchedOk(t) && Evolves(y.sched.plans, t.plans) && OnlyKills(y.sched.plans, t.plans)
    ensures Inv(y.(sched := t))
  {
    var z, c := y.(sched := t), y.nextCall;
    NextCallUnused(y);
    forall id ensures WaitKept(y, z, c, id) { assert KilledAt(y.sched.plans, z.sched.plans, id); }
    TouchKeepsCalls(y, z, c);
    OnceStays(y, z);
    LedgerStays(y, z, c);
  }

  /** A call opens, moves on or ends without touching a plan, a commitment or a handoff. */
  lemma QuietCallStep(y: Sys, z: Sys, c: nat)
    requires Inv(y) && z == y.(calls := z.calls, nextCall := z.nextCall, fenced := z.fenced) && OthersSame(y, z, c)
    requires z.nextCall >= y.nextCall && CallAt(z, c)
    requires c in y.calls ==> y.calls[c].Filtering? || y.calls[c].FenceMarked? || y.calls[c].FenceListed? || y.calls[c].FenceRead?
    requires c in z.calls ==> z.calls[c].Filtering? || z.calls[c].FenceMarked? || z.calls[c].FenceListed? || z.calls[c].FenceRead?
    ensures Inv(z)
  {
    SamePlansEvolve(y.sched.plans);
    forall id ensures WaitKept(y, z, c, id) {}
    TouchKeepsCalls(y, z, c);
    OnceStays(y, z);
    LedgerStays(y, z, c);
  }

  lemma StoreStep(y: Sys, c: nat, v: Verdict)
    requires Inv(y) && c in y.calls && y.calls[c].Filtering?
    ensures Inv(Stored(y, c, v)) && Forward(y, Stored(y, c, v))
  {
    var z, r := Stored(y, c, v), y.calls[c].request;
    assert CallAt(y, c);
    StoreKeeps(y.sched, r, v);
    assert z.sched == Store(y.sched, r, v);
    forall id ensures WaitKept(y, z, c, id) {}
    TouchKeepsCalls(y, z, c);
    OnceStays(y, z);
    LedgerStays(y, z, c);
  }

  // --- commit ---------------------------------------------------------------------------------

  lemma CommitBeginsStep(y: Sys, id: nat)
    requires Inv(y) && MayCommit(y.sched, id)
    ensures var z := CommitOpened(y, id); Inv(z) && Forward(y, z)
  {
    var s, c, z := y.sched, y.nextCall, CommitOpened(y, id);
    BeginCommitKeeps(s, id);
    NextCallUnused(y);
    assert z.sched.plans == s.plans[id := Record(s.plans[id], AwaitingResourceCommit, s.nextEventOrdinal)];
    forall k ensures WaitKept(y, z, c, k) {}
    TouchKeepsCalls(y, z, c);
    forall k ensures OnceAt(z, k) { assert OnceAt(y, k); }
    LedgerStays(y, z, c);
  }

  lemma BrokerAnswersStep(y: Sys, c: nat, a: BrokerAnswer)
    requires Inv(y) && c in y.calls && y.calls[c].CommitAsked?
    ensures var z := Answered(y, c, a); Inv(z) && Forward(y, z)
  {
    var z := Answered(y, c, a);
    assert CallAt(y, c);
    SamePlansEvolve(y.sched.plans);
    forall k ensures WaitKept(y, z, c, k) {}
    TouchKeepsCalls(y, z, c);
    OnceStays(y, z);
    forall g ensures GrantAt(z, g) { assert GrantAt(y, g); }
  }

  /** In a reachable state the three-way re-check of commit's second block is its state test alone. */
  lemma StaleIsStateTest(y: Sys, c: nat)
    requires Inv(y) && c in y.calls && y.calls[c].CommitAnswered?
    ensures y.calls[c].plan in y.sched.plans
    ensures Stale(y.sched, y.calls[c].plan) <==> y.sched.plans[y.calls[c].plan].state != AwaitingResourceCommit
  {
    assert CallAt(y, c) && PlanAt(y.sched, y.calls[c].plan);
  }

  lemma CommitTouches(y: Sys, c: nat)
    requires Inv(y) && c in y.calls && y.calls[c].CommitAnswered?
    ensures Touches(y, CommitReturned(y, c), c) && Forward(y, CommitReturned(y, c)) && SchedOk(CommitReturned(y, c).sched)
  {
    var s, call, z := y.sched, y.calls[c], CommitReturned(y, c);
    var id := call.plan;
    assert CallAt(y, c);
    StaleIsStateTest(y, c);
    if Stale(s, id) {
      SamePlansEvolve(s.plans);
      assert z.sched == s;
    } else {
      FinishCommitKeeps(s, id, call.claims, call.answer);
      assert z.sched == FinishCommit(s, id, call.claims, call.answer).0;
      assert forall k :: k != id ==> (k in z.sched.plans <==> k in s.plans) && (k in s.plans ==> z.sched.plans[k] == s.plans[k]);
    }
    forall k ensures WaitKept(y, z, c, k) {}
  }

  lemma CommitReturnsStep(y: Sys, c: nat)
    requires Inv(y) && c in y.calls && y.calls[c].CommitAnswered?
    ensures Inv(CommitReturned(y, c)) && Forward(y, CommitReturned(y, c))
  {
    var z := CommitReturned(y, c);
    CommitTouches(y, c);
    TouchKeepsCalls(y, z, c);
    OnceStays(y, z);
    forall g ensures GrantAt(z, g) { assert GrantAt(y, g); }
  }

  lemma ReleaseStep(y: Sys, c: nat)
    requires Inv(y) && c in y.calls && y.calls[c].Releasing?
    ensures var z := Released(y, c); Inv(z) && Forward(y, z)
  {
    var z := Released(y, c);
    assert CallAt(y, c);
    SamePlansEvolve(y.sched.plans);
    forall k ensures WaitKept(y, z, c, k) {}
    TouchKeepsCalls(y, z, c);
    OnceStays(y, z);
    forall g ensures GrantAt(z, g) { assert GrantAt(y, g); }
  }

  // --- handoff --------------------------------------------------------------------------------

  lemma HandoffBeginsStep(y: Sys, id: nat)
    requires Inv(y) && MayHandOff(y.sched, id)
    ensures var z := HandoffOpened(y, id); Inv(z) && Forward(y, z)
  {
    var s, c, z := y.sched, y.nextCall, HandoffOpened(y, id);
    assert PlanAt(s, id);
    BeginHandoffKeeps(s, id);
    NextCallUnused(y);
    assert z.sched.plans == s.plans[id := Record(s.plans[id], AwaitingExecution, s.nextEventOrdinal)];
    forall k ensures WaitKept(y, z, c, k) {}
    TouchKeepsCalls(y, z, c);
    OnceStays(y, z);
    LedgerStays(y, z, c);
  }

  lemma ExecutorAnswersStep(y: Sys, c: nat, h: ExecutionHandoff)
    requires Inv(y) && c in y.calls && y.calls[c].HandoffAsked?
    ensures var z := y.(calls := y.calls[c := HandoffAnswered(y.calls[c].plan, h)]); Inv(z) && Forward(y, z)
  {
    var z := y.(calls := y.calls[c := HandoffAnswered(y.calls[c].plan, h)]);
    assert CallAt(y, c);
    SamePlansEvolve(y.sched.plans);
    forall k ensures WaitKept(y, z, c, k) {}
    TouchKeepsCalls(y, z, c);
    OnceStays(y, z);
    LedgerStays(y, z, c);
  }

  // The request and the authority of the plan still stand in the second block of its handoff.
  predicate Undisturbed(s: Sched, id: nat)
    requires id in s.plans
  {
    s.plans[id].requestId !in s.cancelled && s.plans[id].authorityGeneration == s.authority
  }

  predicate SameStamp(s: Sched, t: Sched) {
    t.epoch == s.epoch && t.authority == s.authority && t.cancelled == s.cancelled
  }

  lemma KeptForward(y: Sys, z: Sys)
    requires Keeps(y.sched, z.sched) && SameStamp(y.sched, z.sched) && y.fenced == z.fenced && y.nextCall == z.nextCall
    ensures Forward(y, z)
  {}

  // Effect of the second block on the plans: the plan handed off moves or dies, the others stay.
  lemma HandoffMoves(y: Sys, c: nat)
    requires Inv(y) && c in y.calls && y.calls[c].HandoffAnswered?
    ensures Keeps(y.sched, HandoffReturned(y, c).sched) && SameStamp(y.sched, HandoffReturned(y, c).sched)
    ensures var id, plans := y.calls[c].plan, HandoffReturned(y, c).sched.plans;
      && id in y.sched.plans && plans.Keys == y.sched.plans.Keys
      && (forall k :: k in plans && k != id ==> plans[k] == y.sched.plans[k])
      && plans[id].state != AwaitingExecution
  {
    var s, id, h := y.sched, y.calls[c].plan, y.calls[c].handoff;
    assert CallAt(y, c) && PlanAt(s, id);
    if Undisturbed(s, id) {
      FinishHandoffKeeps(s, id, h);
    } else {
      SamePlansEvolve(s.plans);
    }
  }

  /** A handoff result is authorized only for a plan that is Active once it returns. */
  lemma LaunchIsActive(y: Sys, c: nat)
    requires Inv(y) && c in y.calls && y.calls[c].HandoffAnswered?
    requires HandoffResult(y, c).Ok? && HandoffResult(y, c).value.authorized
    ensures y.calls[c].plan in y.sched.plans && y.sched.plans[y.calls[c].plan].state == AwaitingExecution
    ensures Undisturbed(y.sched, y.calls[c].plan)
    ensures HandoffReturned(y, c).sched.plans[y.calls[c].plan].state == Active
  {
    var id := y.calls[c].plan;
    assert CallAt(y, c) && PlanAt(y.sched, id);
  }

  lemma HandoffTouches(y: Sys, c: nat)
    requires Inv(y) && c in y.calls && y.calls[c].HandoffAnswered?
    ensures Touches(y, HandoffReturned(y, c), c) && Forward(y, HandoffReturned(y, c))
  {
    var z := HandoffReturned(y, c);
    HandoffForward(y, c);
    forall k ensures WaitKept(y, z, c, k) { HandoffWaits(y, c, k); }
  }

  lemma HandoffForward(y: Sys, c: nat)
    requires Inv(y) && c in y.calls && y.calls[c].HandoffAnswered?
    ensures Forward(y, HandoffReturned(y, c)) && SchedOk(HandoffReturned(y, c).sched)
  {
    HandoffMoves(y, c);
    KeptForward(y, HandoffReturned(y, c));
  }

  lemma HandoffWaits(y: Sys, c: nat, k: nat)
    requires Inv(y) && c in y.calls && y.calls[c].HandoffAnswered?
    ensures WaitKept(y, HandoffReturned(y, c), c, k)
  {
    HandoffMoves(y, c);
  }

  lemma HandoffOnce(y: Sys, c: nat)
    requires Inv(y) && c in y.calls && y.calls[c].HandoffAnswered? && Touches(y, HandoffReturned(y, c), c)
    ensures OnceOk(HandoffReturned(y, c))
  {
    var id, z := y.calls[c].plan, HandoffReturned(y, c);
    if z.launched != y.launched { LaunchIsActive(y, c); }
    forall k ensures OnceAt(z, k) {
      assert OnceAt(y, k) && EvolvedAt(y.sched.plans, z.sched.plans, k);
    }
  }

  lemma HandoffFinishesStep(y: Sys, c: nat)
    requires Inv(y) && c in y.calls && y.calls[c].HandoffAnswered?
    ensures var z := HandoffReturned(y, c); Inv(z) && Forward(y, z)
  {
    var z := HandoffReturned(y, c);
    HandoffTouches(y, c);
    HandoffMoves(y, c);
    TouchKeepsCalls(y, z, c);
    HandoffOnce(y, c);
    LedgerStays(y, z, c);
  }
}
