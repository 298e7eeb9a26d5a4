/**
  Candidate publication converges: whatever order or however often evidence is delivered, the scheduler ends
  with the newest generation of each candidate, and schedules the same way.
*/
module Publication {
  import opened Types
  import opened Eligibility
  import opened Ranking
  import opened Domination
  import opened Selection
  import opened Sequences
  import opened OrderedKeys
  import opened SchedulerModel
  import opened Snapshots
  import opened Invariants
  import opened System

  // A publication that is refused leaves the state unchanged.
  function Deliver(s: Sched, cs: seq<Candidate>): Sched {
    if cs == [] then s
    else
      var t := Deliver(s, cs[..|cs| - 1]);
      match Ingest(t, cs[|cs| - 1]) case Ok(u) => u case Err(_) => t
  }

  /** Refused whatever is stored: malformed, or from a fenced boot. */
  predicate Admissible(s: Sched, c: Candidate) {
    && c.candidateId != 0 && c.candidateGeneration != 0 && c.sourceBootId != 0 && c.workerBootId != 0
    && !(c.bindings == [] && c.capacity.vramTotal == 0)
    && c.workerBootId !in s.fencedWorkers && c.sourceBootId !in s.fencedSources
  }

  lemma IngestErrorIff(s: Sched, c: Candidate)
    ensures IngestError(s, c).None? <==>
      Admissible(s, c) && (c.candidateId in s.candidates ==> s.candidates[c.candidateId].candidateGeneration < c.candidateGeneration)
  {}

  /** m holds, for one id, the newest of what was stored and what was published. */
  ghost predicate JoinAt(s: Sched, cs: seq<Candidate>, m: map<nat, Candidate>, id: nat) {
    && (id in m ==>
          || (id in s.candidates && m[id] == s.candidates[id])
          || (m[id] in cs && Admissible(s, m[id]) && m[id].candidateId == id))
    && (id in s.candidates ==> id in m && s.candidates[id].candidateGeneration <= m[id].candidateGeneration)
    && (forall x :: x in cs && Admissible(s, x) && x.candidateId == id ==> id in m && x.candidateGeneration <= m[id].candidateGeneration)
  }

  /** Delivery computes the per-id maximum-generation join. */
  lemma {:induction false} DeliveredIsJoin(s: Sched, cs: seq<Candidate>, id: nat)
    ensures JoinAt(s, cs, Deliver(s, cs).candidates, id)
    ensures Deliver(s, cs).fencedWorkers == s.fencedWorkers && Deliver(s, cs).fencedSources == s.fencedSources
    ensures Deliver(s, cs) == s.(candidates := Deliver(s, cs).candidates, ingestWatermark := Deliver(s, cs).ingestWatermark)
  {
    if cs != [] {
      var front, c := cs[..|cs| - 1], cs[|cs| - 1];
      DeliveredIsJoin(s, front, id);
      IngestErrorIff(Deliver(s, front), c);
      assert forall x :: x in cs <==> x in front || x == c;
    }
  }

  // Stored or published evidence for an id.
  predicate Offered(s: Sched, cs: seq<Candidate>, id: nat, x: Candidate) {
    || (id in s.candidates && x == s.candidates[id])
    || (x in cs && Admissible(s, x) && x.candidateId == id)
  }

  /** One generation of a candidate has one content. */
  ghost predicate Consistent(s: Sched, cs: seq<Candidate>) {
    forall id, x, y :: Offered(s, cs, id, x) && Offered(s, cs, id, y) && x.candidateGeneration == y.candidateGeneration ==> x == y
  }

  lemma JoinUnique(s: Sched, ps: seq<Candidate>, qs: seq<Candidate>, m: map<nat, Candidate>, n: map<nat, Candidate>, id: nat)
    requires Consistent(s, ps) && forall x :: x in ps <==> x in qs
    requires JoinAt(s, ps, m, id) && JoinAt(s, qs, n, id)
    ensures id in m <==> id in n
    ensures id in m ==> m[id] == n[id]
  {
    if id in m && id in n {
      assert Offered(s, ps, id, m[id]) && Offered(s, ps, id, n[id]);
    }
  }

  /** Any two delivery orders of the same publications, with any repetitions, leave the same candidates. */
  lemma DeliveryConverges(s: Sched, ps: seq<Candidate>, qs: seq<Candidate>)
    requires Consistent(s, ps) && forall x :: x in ps <==> x in qs
    ensures Deliver(s, ps).candidates == Deliver(s, qs).candidates
  {
    var m, n := Deliver(s, ps).candidates, Deliver(s, qs).candidates;
    forall id ensures (id in m <==> id in n) && (id in m ==> m[id] == n[id]) {
      DeliveredIsJoin(s, ps, id);
      DeliveredIsJoin(s, qs, id);
      JoinUnique(s, ps, qs, m, n, id);
    }
  }

  // --- the schedule call on the delivered candidates ------------------------------------------

  // The filter pass of a schedule call run to its end, one answer of the gates per candidate.
  function FilteredAll(call: Call, gates: Candidate -> Gates, why: Text): (r: Call)
    requires call.Filtering?
    ensures r.Filtering?
    decreases |call.pending|
  {
    if call.pending == [] then call else FilteredAll(Filtered(call, gates(call.pending[0]), why), gates, why)
  }

  lemma OneFiltered(call: Call, gates: Candidate -> Gates, why: Text)
    requires call.Filtering? && call.pending != []
    ensures var next, c := Filtered(call, gates(call.pending[0]), why), call.pending[0];
      && next.Filtering? && next.pending == call.pending[1..] && next.request == call.request
      && next.eligible == call.eligible + Keep(Passes(call.request.demand, gates), [c])
  {
    var p, c := Passes(call.request.demand, gates), call.pending[0];
    assert [c][..0] == [] && Keep(p, []) == [];
    assert call.eligible + [] == call.eligible;
  }

  lemma {:induction false} FilteredSurvivors(call: Call, gates: Candidate -> Gates, why: Text)
    requires call.Filtering?
    ensures FilteredAll(call, gates, why).pending == [] && FilteredAll(call, gates, why).request == call.request
    ensures FilteredAll(call, gates, why).eligible == call.eligible + Keep(Passes(call.request.demand, gates), call.pending)
    decreases |call.pending|
  {
    var p := Passes(call.request.demand, gates);
    if call.pending == [] {
      assert call.eligible + Keep(p, []) == call.eligible;
    } else {
      var c, rest := call.pending[0], call.pending[1..];
      OneFiltered(call, gates, why);
      FilteredSurvivors(Filtered(call, gates(c), why), gates, why);
      KeepSplits(p, [c], rest);
      assert call.pending == [c] + rest;
      Associative(call.eligible, Keep(p, [c]), Keep(p, rest));
    }
  }

  /** The stepwise pass of a schedule call ends in the decision: its survivors are those of filtering the snapshot
      in one go, and while they are comparable every ranking the sort may return is the decision's. */
  lemma PassDecides(r: SchedulingRequest, w: Weights, snapshot: seq<Candidate>, gates: Candidate -> Gates, why: Text)
    ensures var eligible := FilteredAll(Filtering(r, snapshot, [], []), gates, why).eligible;
      && eligible == Survivors(r.demand, snapshot, gates)
      && forall ranked :: IsRanking(r.demand, w, eligible, ranked) && Comparable(eligible) ==>
           ranked == Decide(r.demand, w, snapshot, gates).eligible
  {
    var keep := Survivors(r.demand, snapshot, gates);
    FilteredSurvivors(Filtering(r, snapshot, [], []), gates, why);
    assert [] + keep == keep;
    forall ranked | IsRanking(r.demand, w, keep, ranked) && Comparable(keep) ensures ranked == RankedOrder(r.demand, w, keep) {
      RankingIsOrder(r.demand, w, keep, ranked);
    }
  }

  /** A schedule call lists the candidates in ascending id order. */
  lemma SnapshotAscends(s: Sched)
    requires SchedOk(s)
    ensures AscendingIds(InOrder(s.candidates))
  {
    var cs, ks := InOrder(s.candidates), Ascending(s.candidates.Keys, Bound(s.candidates.Keys));
    InOrderLists(s.candidates);
    forall i, j | 0 <= i < j < |cs| ensures cs[i].candidateId < cs[j].candidateId {
      assert ks[i] in ks && ks[j] in ks;
      assert CandidateAt(s, ks[i]) && CandidateAt(s, ks[j]);
    }
  }

  /** So a stored candidate that another one with a smaller id dominates is never first in the scheduler's own
      listing, whether or not all scores are numbers. */
  lemma DominatedNeverFirst(s: Sched, r: SchedulingRequest, gates: Candidate -> Gates, a: nat, b: nat)
    requires SchedOk(s) && NonNegative(s.config.weights) && a in s.candidates && b in s.candidates && a < b
    requires Dominates(s.candidates[a], s.candidates[b]) && HopsInRange(s.candidates[a]) && HopsInRange(s.candidates[b])
    requires AtLeastAsOpen(gates(s.candidates[a]), gates(s.candidates[b]))
    ensures var ranked := Decide(r.demand, s.config.weights, InOrder(s.candidates), gates).eligible;
      ranked != [] ==> ranked[0] != s.candidates[b]
  {
    SnapshotAscends(s);
    StoredIsListed(s, a);
    StoredIsListed(s, b);
    DominatedNeverFirstInIdOrder(r.demand, s.config.weights, InOrder(s.candidates), gates, s.candidates[a], s.candidates[b]);
  }

  lemma StoredIsListed(s: Sched, c: nat)
    requires SchedOk(s) && c in s.candidates
    ensures s.candidates[c] in InOrder(s.candidates) && s.candidates[c].candidateId == c
  {
    var ks := Ascending(s.candidates.Keys, Bound(s.candidates.Keys));
    InOrderLists(s.candidates);
    assert CandidateAt(s, c) && c in ks;
    var i :| 0 <= i < |ks| && ks[i] == c;
    assert InOrder(s.candidates)[i] == s.candidates[c];
  }

  /** Schedule reaches the same decision for every delivery order, and in each the winner precedes every other
      eligible candidate exactly when the survivors are comparable. */
  lemma DecisionIgnoresDelivery(s: Sched, ps: seq<Candidate>, qs: seq<Candidate>, r: SchedulingRequest, gates: Candidate -> Gates)
    requires SchedOk(s) && Consistent(s, ps) && forall x :: x in ps <==> x in qs
    ensures var a, b := InOrder(Deliver(s, ps).candidates), InOrder(Deliver(s, qs).candidates);
      var d, w := r.demand, s.config.weights;
      var decision := Decide(d, w, a, gates);
      && decision == Decide(d, w, b, gates) && DistinctIds(a)
      && (decision.eligible != [] ==> (WinnerLeads(d, w, a, gates, decision.eligible[0]) <==> Comparable(Survivors(d, a, gates))))
  {
    DeliveryConverges(s, ps, qs);
    DeliveredOk(s, ps);
    var a, w := InOrder(Deliver(s, ps).candidates), s.config.weights;
    SnapshotAscends(Deliver(s, ps));
    if Decide(r.demand, w, a, gates).eligible != [] { WinnerLeadsIff(r.demand, w, a, gates); }
  }

  lemma {:induction false} DeliveredOk(s: Sched, cs: seq<Candidate>)
    requires SchedOk(s)
    ensures SchedOk(Deliver(s, cs))
  {
    if cs != [] {
      var t, c := Deliver(s, cs[..|cs| - 1]), cs[|cs| - 1];
      DeliveredOk(s, cs[..|cs| - 1]);
      if Ingest(t, c).Ok? { IngestKeeps(t, c); }
    }
  }
}
