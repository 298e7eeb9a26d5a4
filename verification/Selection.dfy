/** schedule() between its two locked blocks: filter the snapshot, rank the survivors, pick a winner. */
module Selection {
  import opened Types
  import opened Doubles
  import opened Eligibility
  import opened Ranking
  import opened Domination
  import opened Sequences
  import opened Sorting

  predicate Precedes(d: DemandProfile, w: Weights, a: Candidate, b: Candidate) {
    Before(Rank(d, a, w), Rank(d, b, w))
  }

  function Order(d: DemandProfile, w: Weights): (Candidate, Candidate) -> bool {
    (a, b) => Precedes(d, w, a, b)
  }

  function Passes(d: DemandProfile, gates: Candidate -> Gates): Candidate -> bool {
    c => Filter(d, c, gates(c)) == Eligible
  }

  function Fails(d: DemandProfile, gates: Candidate -> Gates): Candidate -> bool {
    c => Filter(d, c, gates(c)) != Eligible
  }

  function Ids(cs: seq<Candidate>): seq<nat> {
    seq(|cs|, i requires 0 <= i < |cs| => cs[i].candidateId)
  }

  function RankedOrder(d: DemandProfile, w: Weights, eligible: seq<Candidate>): seq<Candidate> {
    Sort(Order(d, w), eligible)
  }

  /** What std::sort may make of the survivors: some permutation, and the sorted one when every score is a number.
      With a NaN score its comparator is no strict weak order and the standard promises nothing. */
  ghost predicate IsRanking(d: DemandProfile, w: Weights, eligible: seq<Candidate>, ranked: seq<Candidate>) {
    && multiset(ranked) == multiset(eligible)
    && ((forall c :: c in eligible ==> Scorable(c)) ==> ranked == RankedOrder(d, w, eligible))
  }

  // The entries after the winner, at most maxFallback of them; zero means no limit.
  function Fallbacks(ranked: seq<Candidate>, maxFallback: nat): seq<nat>
    requires ranked != []
  {
    var limit := if maxFallback > 0 then maxFallback else |ranked| - 1;
    Ids(ranked[1..if 1 + limit < |ranked| then 1 + limit else |ranked|])
  }

  datatype Decision = Decision(eligible: seq<Candidate>, disqualified: seq<nat>)

  function Decide(d: DemandProfile, w: Weights, snapshot: seq<Candidate>, gates: Candidate -> Gates): Decision {
    Decision(RankedOrder(d, w, Keep(Passes(d, gates), snapshot)), Ids(Keep(Fails(d, gates), snapshot)))
  }

  method FilterAndRank(d: DemandProfile, w: Weights, snapshot: seq<Candidate>, gates: Candidate -> Gates)
    returns (decision: Decision)
    ensures decision == Decide(d, w, snapshot, gates)
  {
    var eligible: seq<Candidate> := [];
    var disqualified: seq<nat> := [];
    var i := 0;
    while i < |snapshot|
      invariant 0 <= i <= |snapshot|
      invariant eligible == Keep(Passes(d, gates), snapshot[..i])
      invariant disqualified == Ids(Keep(Fails(d, gates), snapshot[..i]))
    {
      assert snapshot[..i + 1][..i] == snapshot[..i];
      var c := snapshot[i];
      var status := Evaluate(d, c, gates(c));
      if status == Eligible { eligible := eligible + [c]; } else { disqualified := disqualified + [c.candidateId]; }
      i := i + 1;
    }
    assert snapshot[..i] == snapshot;
    decision := Decision(RankedOrder(d, w, eligible), disqualified);
  }

  // --- the comparator on candidates -----------------------------------------------------------

  ghost predicate DistinctIds(cs: seq<Candidate>) {
    forall i, j :: 0 <= i < j < |cs| ==> cs[i].candidateId != cs[j].candidateId
  }

  ghost predicate ById(dom: iset<Candidate>) {
    forall a, b :: a in dom && b in dom && a.candidateId == b.candidateId ==> a == b
  }

  ghost function Members(cs: seq<Candidate>): iset<Candidate> {
    iset c | c in cs
  }

  lemma PrecedesIsOrder(d: DemandProfile, w: Weights, a: Candidate, b: Candidate, c: Candidate)
    requires Scorable(a) && Scorable(b) && Scorable(c)
    ensures !Precedes(d, w, a, a)
    ensures Precedes(d, w, a, b) && Precedes(d, w, b, c) ==> Precedes(d, w, a, c)
    ensures a.candidateId != b.candidateId ==> Precedes(d, w, a, b) || Precedes(d, w, b, a)
  {
    RankNumericIff(d, a, w);
    RankNumericIff(d, b, w);
    RankNumericIff(d, c, w);
    BeforeIsStrictTotal(Rank(d, a, w), Rank(d, b, w), Rank(d, c, w));
  }

  lemma NaNIsUncompared(d: DemandProfile, w: Weights, a: Candidate, b: Candidate)
    requires !Scorable(a) || !Scorable(b)
    ensures !Precedes(d, w, a, b) && !Precedes(d, w, b, a)
  {
    RankNumericIff(d, a, w);
    RankNumericIff(d, b, w);
    NaNIsUnordered(Rank(d, a, w), Rank(d, b, w));
  }

  ghost predicate AllScorable(cs: seq<Candidate>) {
    forall c :: c in cs ==> Scorable(c)
  }

  // A sort has nothing to compare, or only numbers.
  ghost predicate Comparable(cs: seq<Candidate>) {
    |cs| <= 1 || AllScorable(cs)
  }

  lemma MembersById(cs: seq<Candidate>)
    requires DistinctIds(cs)
    ensures ById(Members(cs)) && NoDuplicates(cs)
  {
    forall a, b | a in Members(cs) && b in Members(cs) && a.candidateId == b.candidateId ensures a == b {
      var i :| 0 <= i < |cs| && cs[i] == a;
      var j :| 0 <= j < |cs| && cs[j] == b;
      assert i == j;
    }
  }

  lemma ComparatorTotal(d: DemandProfile, w: Weights, cs: seq<Candidate>)
    requires DistinctIds(cs) && AllScorable(cs)
    ensures StrictTotalOn(Order(d, w), Members(cs))
  {
    var less := Order(d, w);
    MembersById(cs);
    forall a, b, c | a in cs && b in cs && c in cs
      ensures !less(a, a) && (less(a, b) && less(b, c) ==> less(a, c)) && (a != b ==> less(a, b) || less(b, a))
    {
      PrecedesIsOrder(d, w, a, b, c);
      assert a in Members(cs) && b in Members(cs);
    }
  }

  /** The comparator is a strict total order on candidates with distinct ids exactly when each of them has a
      score that is a number, or there are not two of them. */
  lemma ComparatorTotalIff(d: DemandProfile, w: Weights, cs: seq<Candidate>)
    requires DistinctIds(cs)
    ensures StrictTotalOn(Order(d, w), Members(cs)) <==> Comparable(cs)
  {
    if AllScorable(cs) {
      ComparatorTotal(d, w, cs);
    } else if |cs| <= 1 {
      AloneIsTotal(d, w, cs);
    } else {
      var a :| a in cs && !Scorable(a);
      var b := if cs[0] == a then cs[1] else cs[0];
      MembersById(cs);
      NaNIsUncompared(d, w, a, b);
      assert a in Members(cs) && b in Members(cs) && a != b;
      assert !Order(d, w)(a, b) && !Order(d, w)(b, a);
    }
  }

  lemma NeverBeforeItself(d: DemandProfile, w: Weights, a: Candidate)
    ensures !Precedes(d, w, a, a)
  {
    if Scorable(a) { PrecedesIsOrder(d, w, a, a, a); } else { NaNIsUncompared(d, w, a, a); }
  }

  lemma OneIsTotal<T(!new)>(less: (T, T) -> bool, dom: iset<T>)
    requires forall x :: x in dom ==> !less(x, x)
    requires forall x, y :: x in dom && y in dom ==> x == y
    ensures StrictTotalOn(less, dom)
  {}

  lemma AloneIsTotal(d: DemandProfile, w: Weights, cs: seq<Candidate>)
    requires |cs| <= 1
    ensures StrictTotalOn(Order(d, w), Members(cs))
  {
    forall x | x in Members(cs) ensures !Order(d, w)(x, x) { NeverBeforeItself(d, w, x); }
    OneMember(cs);
    OneIsTotal(Order(d, w), Members(cs));
  }

  lemma OneMember(cs: seq<Candidate>)
    requires |cs| <= 1
    ensures forall x, y :: x in Members(cs) && y in Members(cs) ==> x == y
  {}

  // --- sorting the survivors ------------------------------------------------------------------

  lemma DistinctBelow(s: seq<Candidate>, t: seq<Candidate>)
    requires DistinctIds(s) && multiset(t) <= multiset(s)
    ensures DistinctIds(t)
  {
    MembersById(s);
    forall i, j | 0 <= i < j < |t| ensures t[i].candidateId != t[j].candidateId {
      assert t[i] in multiset(t) && t[j] in multiset(t);
      assert t[i] in multiset(s) && t[j] in multiset(s);
      assert t[i] in Members(s) && t[j] in Members(s);
      if t[i] == t[j] {
        TwiceIn(t, i, j);
        UniqueCount(s, t[i]);
      }
    }
  }

  lemma RankedDistinct(d: DemandProfile, w: Weights, cs: seq<Candidate>)
    requires DistinctIds(cs)
    ensures DistinctIds(RankedOrder(d, w, cs)) && multiset(RankedOrder(d, w, cs)) == multiset(cs)
  {
    SortPermutes(Order(d, w), cs);
    DistinctBelow(cs, RankedOrder(d, w, cs));
  }

  lemma SameLength<T>(s: seq<T>, t: seq<T>)
    requires multiset(s) == multiset(t)
    ensures |s| == |t|
  {
    assert |multiset(s)| == |s| && |multiset(t)| == |t|;
  }

  /** The result of the sort is strictly sorted exactly when the candidates are comparable. */
  lemma RankedSortedIff(d: DemandProfile, w: Weights, cs: seq<Candidate>)
    requires DistinctIds(cs)
    ensures Sorted(Order(d, w), RankedOrder(d, w, cs)) <==> Comparable(cs)
  {
    var r := RankedOrder(d, w, cs);
    RankedDistinct(d, w, cs);
    SameLength(r, cs);
    if Comparable(cs) {
      MembersById(cs);
      ComparatorTotalIff(d, w, cs);
      SortSorts(Order(d, w), Members(cs), cs);
    } else {
      var a :| a in cs && !Scorable(a);
      SameMembers(r, cs, a);
      var i :| 0 <= i < |r| && r[i] == a;
      var j, k := if i == 0 then 0 else i - 1, if i == 0 then 1 else i;
      NaNIsUncompared(d, w, r[j], r[k]);
      assert !Order(d, w)(r[j], r[k]);
    }
  }

  lemma RankedUnique(d: DemandProfile, w: Weights, s: seq<Candidate>, t: seq<Candidate>)
    requires DistinctIds(s) && Comparable(s) && multiset(s) == multiset(t)
    ensures RankedOrder(d, w, s) == RankedOrder(d, w, t)
  {
    var rs, rt := RankedOrder(d, w, s), RankedOrder(d, w, t);
    SameLength(s, t);
    DistinctBelow(s, t);
    assert forall c :: c in t ==> c in multiset(s);
    RankedSortedIff(d, w, s);
    RankedSortedIff(d, w, t);
    RankedDistinct(d, w, s);
    RankedDistinct(d, w, t);
    ComparatorTotalIff(d, w, s);
    StrictIsAsymmetric(Order(d, w), Members(s));
    forall c | c in rs ensures c in Members(s) { SameMembers(rs, s, c); }
    SortedUnique(Order(d, w), Members(s), rs, rt);
  }

  // Of comparable survivors there is one ranking.
  lemma RankingIsOrder(d: DemandProfile, w: Weights, cs: seq<Candidate>, ranked: seq<Candidate>)
    requires IsRanking(d, w, cs, ranked) && Comparable(cs)
    ensures ranked == RankedOrder(d, w, cs)
  {
    SameLength(ranked, cs);
    SortPermutes(Order(d, w), cs);
    SameLength(RankedOrder(d, w, cs), cs);
    if |cs| == 1 {
      SameMembers(ranked, cs, ranked[0]);
      SameMembers(RankedOrder(d, w, cs), cs, RankedOrder(d, w, cs)[0]);
    }
  }

  // --- the decision ---------------------------------------------------------------------------

  function Survivors(d: DemandProfile, snapshot: seq<Candidate>, gates: Candidate -> Gates): seq<Candidate> {
    Keep(Passes(d, gates), snapshot)
  }

  lemma SurvivorsDistinct(d: DemandProfile, snapshot: seq<Candidate>, gates: Candidate -> Gates)
    requires DistinctIds(snapshot)
    ensures DistinctIds(Survivors(d, snapshot, gates))
  {
    KeepCounts(Passes(d, gates), snapshot);
    DistinctBelow(snapshot, Survivors(d, snapshot, gates));
  }

  /** Eligible and disqualified partition the snapshot; eligible is strictly sorted by the comparator exactly when
      the survivors are comparable. */
  lemma DecisionPartitions(d: DemandProfile, w: Weights, snapshot: seq<Candidate>, gates: Candidate -> Gates)
    requires DistinctIds(snapshot)
    ensures var r := Decide(d, w, snapshot, gates);
      && DistinctIds(r.eligible) && (Sorted(Order(d, w), r.eligible) <==> Comparable(Survivors(d, snapshot, gates)))
      && (forall c :: c in r.eligible <==> c in snapshot && Filter(d, c, gates(c)) == Eligible)
      && (forall c :: c in snapshot ==> (c.candidateId in r.disqualified <==> c !in r.eligible))
  {
    var p, q := Passes(d, gates), Fails(d, gates);
    var r := Decide(d, w, snapshot, gates);
    SurvivorsDistinct(d, snapshot, gates);
    RankedSortedIff(d, w, Keep(p, snapshot));
    RankedDistinct(d, w, Keep(p, snapshot));
    MembersById(snapshot);
    forall c ensures c in r.eligible <==> c in snapshot && p(c) {
      SameMembers(r.eligible, Keep(p, snapshot), c);
      KeepMembers(p, snapshot, c);
    }
    forall c | c in snapshot ensures c.candidateId in r.disqualified <==> q(c) {
      DisqualifiedIff(snapshot, q, c);
    }
  }

  lemma DisqualifiedIff(snapshot: seq<Candidate>, q: Candidate -> bool, c: Candidate)
    requires ById(Members(snapshot)) && c in snapshot
    ensures c.candidateId in Ids(Keep(q, snapshot)) <==> q(c)
  {
    var out := Keep(q, snapshot);
    KeepMembers(q, snapshot, c);
    if c.candidateId in Ids(out) {
      var i :| 0 <= i < |out| && out[i].candidateId == c.candidateId;
      KeepMembers(q, snapshot, out[i]);
      assert out[i] in Members(snapshot) && c in Members(snapshot);
    }
    if q(c) {
      var i :| 0 <= i < |out| && out[i] == c;
      assert Ids(out)[i] == c.candidateId;
    }
  }

  lemma SurvivorsPermute(d: DemandProfile, s: seq<Candidate>, t: seq<Candidate>, gates: Candidate -> Gates)
    requires multiset(s) == multiset(t)
    ensures multiset(Survivors(d, s, gates)) == multiset(Survivors(d, t, gates))
  {
    KeepCounts(Passes(d, gates), s);
    KeepCounts(Passes(d, gates), t);
  }

  /** While the survivors are comparable the decision depends on the snapshot as a set; which ids are
      disqualified always does. */
  lemma DecisionIgnoresOrder(d: DemandProfile, w: Weights, s: seq<Candidate>, t: seq<Candidate>, gates: Candidate -> Gates)
    requires DistinctIds(s) && multiset(s) == multiset(t)
    ensures Comparable(Survivors(d, s, gates)) ==> Decide(d, w, s, gates).eligible == Decide(d, w, t, gates).eligible
    ensures forall id :: id in Decide(d, w, s, gates).disqualified <==> id in Decide(d, w, t, gates).disqualified
  {
    SurvivorsDistinct(d, s, gates);
    SurvivorsPermute(d, s, t, gates);
    if Comparable(Survivors(d, s, gates)) { RankedUnique(d, w, Survivors(d, s, gates), Survivors(d, t, gates)); }
    SameIds(Fails(d, gates), s, t);
  }

  lemma SameIds(q: Candidate -> bool, s: seq<Candidate>, t: seq<Candidate>)
    requires multiset(s) == multiset(t)
    ensures forall id :: id in Ids(Keep(q, s)) <==> id in Ids(Keep(q, t))
  {
    var a, b := Keep(q, s), Keep(q, t);
    KeepCounts(q, s);
    KeepCounts(q, t);
    assert multiset(a) == multiset(b);
    forall id ensures id in Ids(a) <==> id in Ids(b) {
      if id in Ids(a) { IdsByMultiset(a, b, id); }
      if id in Ids(b) { IdsByMultiset(b, a, id); }
    }
  }

  lemma IdsByMultiset(a: seq<Candidate>, b: seq<Candidate>, id: nat)
    requires multiset(a) == multiset(b) && id in Ids(a)
    ensures id in Ids(b)
  {
    var i :| 0 <= i < |a| && a[i].candidateId == id;
    SameMembers(a, b, a[i]);
    var j :| 0 <= j < |b| && b[j] == a[i];
    assert Ids(b)[j] == id;
  }

  // --- when the order of the snapshot decides -------------------------------------------------

  /** Two survivors of which one has a NaN score come out in the order they were listed. */
  lemma NaNPairKeepsOrder(d: DemandProfile, w: Weights, a: Candidate, b: Candidate, gates: Candidate -> Gates)
    requires !Scorable(a) || !Scorable(b)
    requires Filter(d, a, gates(a)) == Eligible && Filter(d, b, gates(b)) == Eligible
    ensures Decide(d, w, [a, b], gates).eligible == [a, b] && Decide(d, w, [b, a], gates).eligible == [b, a]
  {
    NaNIsUncompared(d, w, a, b);
    BothKept(Passes(d, gates), a, b);
    BothKept(Passes(d, gates), b, a);
    PairSorts(Order(d, w), a, b);
    PairSorts(Order(d, w), b, a);
  }

  lemma BothKept<T>(p: T -> bool, a: T, b: T)
    requires p(a) && p(b)
    ensures Keep(p, [a, b]) == [a, b]
  {
    assert [a, b][..1] == [a] && [a][..0] == [];
    assert Keep(p, [a]) == [a];
  }

  // A candidate that passes the filter for d, with any health score.
  function Published(d: DemandProfile, score: Double): Candidate {
    var x := Witness(d, RequiredVram(d.accelerator));
    x.(health := x.health.(healthScore := score))
  }

  lemma PublishedPasses(d: DemandProfile, score: Double, id: nat)
    ensures Filter(d, Published(d, score).(candidateId := id), Gates(None, None)) == Eligible
  {
    WitnessPasses(d, Published(d, score).(candidateId := id));
  }

  lemma NaNScore(c: Candidate)
    requires Decode(c.health.healthScore).NaN?
    ensures !Scorable(c)
  {}

  lemma NaNHasNoScore(d: DemandProfile)
    ensures !Scorable(Published(d, NAN_BITS))
  {
    NaNBits();
    NaNScore(Published(d, NAN_BITS));
  }

  lemma ZeroIsScorable(d: DemandProfile, id: nat)
    ensures Scorable(Published(d, 0).(candidateId := id))
  {
    FiniteIsScorable(Published(d, 0).(candidateId := id));
  }

  /** Such candidates exist for every demand.  Listed by id, the one without a score is selected ahead of the one
      that has one. */
  lemma NaNCandidate(d: DemandProfile, w: Weights)
    ensures var n, a := Published(d, NAN_BITS), Published(d, 0).(candidateId := 2);
      var gates := (c: Candidate) => Gates(None, None);
      && n.candidateId < a.candidateId && !Scorable(n) && Scorable(a)
      && Filter(d, n, gates(n)) == Eligible && Filter(d, a, gates(a)) == Eligible
      && Decide(d, w, [n, a], gates).eligible == [n, a] && Decide(d, w, [a, n], gates).eligible == [a, n]
  {
    NaNHasNoScore(d);
    ZeroIsScorable(d, 2);
    PublishedPasses(d, NAN_BITS, 1);
    PublishedPasses(d, 0, 2);
    NaNPairKeepsOrder(d, w, Published(d, NAN_BITS), Published(d, 0).(candidateId := 2), c => Gates(None, None));
  }

  ghost predicate OrderNeverMatters(d: DemandProfile, w: Weights, snapshot: seq<Candidate>, gates: Candidate -> Gates) {
    forall t :: multiset(t) == multiset(snapshot) ==> Decide(d, w, t, gates).eligible == Decide(d, w, snapshot, gates).eligible
  }

  // A survivor listed before another one that does not precede it comes out before it.
  lemma ListedFirst(d: DemandProfile, w: Weights, x: Candidate, y: Candidate, s: seq<Candidate>, gates: Candidate -> Gates)
    requires !Precedes(d, w, y, x) && Filter(d, x, gates(x)) == Eligible && Filter(d, y, gates(y)) == Eligible
    requires InTurn(s, x, y)
    ensures InTurn(Decide(d, w, s, gates).eligible, x, y)
  {
    KeepKeepsTurns(Passes(d, gates), s, x, y);
    SortKeepsTurns(Order(d, w), Survivors(d, s, gates), x, y);
  }

  lemma SwappedDiffer(d: DemandProfile, w: Weights, x: Candidate, y: Candidate, rest: seq<Candidate>, gates: Candidate -> Gates)
    requires DistinctIds([x, y] + rest) && !Precedes(d, w, x, y) && !Precedes(d, w, y, x)
    requires Filter(d, x, gates(x)) == Eligible && Filter(d, y, gates(y)) == Eligible
    ensures Decide(d, w, [x, y] + rest, gates).eligible != Decide(d, w, [y, x] + rest, gates).eligible
  {
    assert ([x, y] + rest)[0] == x && ([x, y] + rest)[1] == y && ([y, x] + rest)[0] == y && ([y, x] + rest)[1] == x;
    ListedFirst(d, w, x, y, [x, y] + rest, gates);
    ListedFirst(d, w, y, x, [y, x] + rest, gates);
    SurvivorsDistinct(d, [x, y] + rest, gates);
    RankedDistinct(d, w, Survivors(d, [x, y] + rest, gates));
    MembersById(Decide(d, w, [x, y] + rest, gates).eligible);
    InTurnOneWay(Decide(d, w, [x, y] + rest, gates).eligible, x, y);
  }

  lemma NaNMakesOrderMatter(d: DemandProfile, w: Weights, s: seq<Candidate>, gates: Candidate -> Gates, x: Candidate, y: Candidate)
    requires DistinctIds(s) && x in s && y in s && x != y && (!Scorable(x) || !Scorable(y))
    requires Filter(d, x, gates(x)) == Eligible && Filter(d, y, gates(y)) == Eligible
    ensures !OrderNeverMatters(d, w, s, gates)
  {
    var rest := ExtractTwo(s, x, y);
    NaNIsUncompared(d, w, x, y);
    DistinctBelow(s, [x, y] + rest);
    SwappedDiffer(d, w, x, y, rest, gates);
    SwapPermutes(x, y, rest);
    TwoResults(d, w, s, [x, y] + rest, [y, x] + rest, gates);
  }

  lemma SwapPermutes<T>(x: T, y: T, rest: seq<T>)
    ensures multiset([y, x] + rest) == multiset([x, y] + rest)
  {}

  lemma TwoResults(d: DemandProfile, w: Weights, s: seq<Candidate>, t: seq<Candidate>, u: seq<Candidate>, gates: Candidate -> Gates)
    requires multiset(t) == multiset(s) && multiset(u) == multiset(s)
    requires Decide(d, w, t, gates).eligible != Decide(d, w, u, gates).eligible
    ensures !OrderNeverMatters(d, w, s, gates)
  {}

  /** The ranking is the same for every order of the snapshot exactly when the survivors are comparable. */
  lemma OrderNeverMattersIff(d: DemandProfile, w: Weights, s: seq<Candidate>, gates: Candidate -> Gates)
    requires DistinctIds(s)
    ensures OrderNeverMatters(d, w, s, gates) <==> Comparable(Survivors(d, s, gates))
  {
    var keep := Survivors(d, s, gates);
    if Comparable(keep) {
      forall t | multiset(t) == multiset(s) ensures Decide(d, w, t, gates).eligible == Decide(d, w, s, gates).eligible {
        DecisionIgnoresOrder(d, w, s, t, gates);
      }
    } else {
      var x :| x in keep && !Scorable(x);
      SurvivorsDistinct(d, s, gates);
      MembersById(keep);
      var y := if keep[0] == x then keep[1] else keep[0];
      KeepMembers(Passes(d, gates), s, x);
      KeepMembers(Passes(d, gates), s, y);
      NaNMakesOrderMatter(d, w, s, gates, x, y);
    }
  }

  // --- the winner -----------------------------------------------------------------------------

  ghost predicate WinnerLeads(d: DemandProfile, w: Weights, snapshot: seq<Candidate>, gates: Candidate -> Gates, winner: Candidate) {
    forall c :: c in snapshot && c != winner && Filter(d, c, gates(c)) == Eligible ==> Precedes(d, w, winner, c)
  }

  lemma FallbacksFollow(ranked: seq<Candidate>, maxFallback: nat)
    requires ranked != []
    ensures var fallbacks := Fallbacks(ranked, maxFallback);
      && (forall i :: 0 <= i < |fallbacks| ==> fallbacks[i] == ranked[i + 1].candidateId)
      && |fallbacks| == if maxFallback == 0 || maxFallback > |ranked| - 1 then |ranked| - 1 else maxFallback
  {}

  /** The winner precedes every other eligible candidate exactly when the survivors are comparable; the fallbacks
      are the next entries in order, all of them when the policy limit is zero, otherwise the first maxFallback. */
  lemma WinnerAndFallbacks(d: DemandProfile, w: Weights, snapshot: seq<Candidate>, gates: Candidate -> Gates, maxFallback: nat)
    requires DistinctIds(snapshot) && Decide(d, w, snapshot, gates).eligible != []
    ensures var ranked := Decide(d, w, snapshot, gates).eligible;
      var fallbacks := Fallbacks(ranked, maxFallback);
      && (WinnerLeads(d, w, snapshot, gates, ranked[0]) <==> Comparable(Survivors(d, snapshot, gates)))
      && (forall i :: 0 <= i < |fallbacks| ==> fallbacks[i] == ranked[i + 1].candidateId)
      && |fallbacks| == if maxFallback == 0 || maxFallback > |ranked| - 1 then |ranked| - 1 else maxFallback
  {
    WinnerLeadsIff(d, w, snapshot, gates);
    FallbacksFollow(Decide(d, w, snapshot, gates).eligible, maxFallback);
  }

  lemma WinnerLeadsIff(d: DemandProfile, w: Weights, snapshot: seq<Candidate>, gates: Candidate -> Gates)
    requires DistinctIds(snapshot) && Decide(d, w, snapshot, gates).eligible != []
    ensures WinnerLeads(d, w, snapshot, gates, Decide(d, w, snapshot, gates).eligible[0])
      <==> Comparable(Survivors(d, snapshot, gates))
  {
    var ranked, keep := Decide(d, w, snapshot, gates).eligible, Survivors(d, snapshot, gates);
    DecisionPartitions(d, w, snapshot, gates);
    SurvivorsDistinct(d, snapshot, gates);
    RankedDistinct(d, w, keep);
    if Comparable(keep) {
      forall c | c in snapshot && c != ranked[0] && Filter(d, c, gates(c)) == Eligible ensures Precedes(d, w, ranked[0], c) {
        assert c in ranked;
        var i :| 0 <= i < |ranked| && ranked[i] == c;
        assert Order(d, w)(ranked[0], ranked[i]);
      }
    } else {
      NaNSpoilsLead(d, w, snapshot, gates, ranked, keep);
    }
  }

  lemma NaNSpoilsLead(d: DemandProfile, w: Weights, snapshot: seq<Candidate>, gates: Candidate -> Gates, ranked: seq<Candidate>, keep: seq<Candidate>)
    requires keep == Survivors(d, snapshot, gates) && !Comparable(keep) && multiset(ranked) == multiset(keep) && DistinctIds(ranked)
    ensures ranked != [] && !WinnerLeads(d, w, snapshot, gates, ranked[0])
  {
    SameLength(ranked, keep);
    MembersById(ranked);
    var x :| x in keep && !Scorable(x);
    SameMembers(ranked, keep, x);
    var c := if ranked[0] == x then ranked[1] else x;
    SameMembers(ranked, keep, c);
    KeepMembers(Passes(d, gates), snapshot, c);
    NaNIsUncompared(d, w, ranked[0], c);
  }

  // --- domination through the pipeline --------------------------------------------------------

  predicate AtLeastAsOpen(g: Gates, h: Gates) {
    (h.ready != Some(false) ==> g.ready != Some(false)) && (h.allows != Some(false) ==> g.allows != Some(false))
  }

  predicate SomeOffers(c: Candidate, capability: AcceleratorClass) {
    exists b :: b in c.bindings && Offers(b, capability)
  }

  predicate SomeNic(c: Candidate) {
    exists b :: b in c.bindings && HasNic(b)
  }

  lemma DominantBindings(a: Candidate, b: Candidate, capability: AcceleratorClass)
    requires multiset(b.bindings) <= multiset(a.bindings)
    ensures b.bindings != [] ==> a.bindings != []
    ensures SomeOffers(b, capability) ==> SomeOffers(a, capability)
    ensures SomeNic(b) ==> SomeNic(a)
  {
    forall x | x in b.bindings ensures x in a.bindings {
      assert x in multiset(b.bindings);
      assert x in multiset(a.bindings);
    }
    assert b.bindings != [] ==> b.bindings[0] in b.bindings;
  }

  lemma DominantEligible(d: DemandProfile, a: Candidate, ga: Gates, b: Candidate, gb: Gates)
    requires Dominates(a, b) && AtLeastAsOpen(ga, gb) && Filter(d, b, gb) == Eligible
    ensures Filter(d, a, ga) == Eligible
  {
    DominantBindings(a, b, d.accelerator.capability);
    assert d.accelerator.minimumCount > 0 ==> SomeOffers(b, d.accelerator.capability);
    assert d.network.requireNic ==> SomeNic(b);
  }

  /** While the survivors are comparable, a dominated candidate with the larger id is never selected: its
      dominator is eligible whenever it is, scores no worse and precedes it. */
  lemma DominatedNeverWins(d: DemandProfile, w: Weights, snapshot: seq<Candidate>, gates: Candidate -> Gates, a: Candidate, b: Candidate)
    requires NonNegative(w) && DistinctIds(snapshot) && a in snapshot && b in snapshot
    requires Dominates(a, b) && HopsInRange(a) && HopsInRange(b) && AtLeastAsOpen(gates(a), gates(b))
    requires a.candidateId < b.candidateId && Comparable(Survivors(d, snapshot, gates))
    ensures var ranked := Decide(d, w, snapshot, gates).eligible;
      && (b in ranked ==> a in ranked && LessEq(Rank(d, a, w).score, Rank(d, b, w).score) && Precedes(d, w, a, b))
      && (ranked != [] ==> ranked[0] != b)
  {
    var ranked := Decide(d, w, snapshot, gates).eligible;
    DecisionPartitions(d, w, snapshot, gates);
    if b in ranked {
      DominantEligible(d, a, gates(a), b, gates(b));
      BothScorable(d, snapshot, gates, a, b);
      DominantRanksFirst(d, a, b, w);
      if ranked[0] == b { DominatorLeads(d, w, snapshot, gates, a, b); }
    }
  }

  lemma BothScorable(d: DemandProfile, snapshot: seq<Candidate>, gates: Candidate -> Gates, a: Candidate, b: Candidate)
    requires Comparable(Survivors(d, snapshot, gates)) && a in snapshot && b in snapshot && a != b
    requires Filter(d, a, gates(a)) == Eligible && Filter(d, b, gates(b)) == Eligible
    ensures Scorable(a) && Scorable(b)
  {
    KeepMembers(Passes(d, gates), snapshot, a);
    KeepMembers(Passes(d, gates), snapshot, b);
  }

  lemma DominatorLeads(d: DemandProfile, w: Weights, snapshot: seq<Candidate>, gates: Candidate -> Gates, a: Candidate, b: Candidate)
    requires DistinctIds(snapshot) && Comparable(Survivors(d, snapshot, gates)) && Precedes(d, w, a, b) && a != b
    requires a in snapshot && Filter(d, a, gates(a)) == Eligible && Scorable(a) && Scorable(b)
    requires Decide(d, w, snapshot, gates).eligible != []
    ensures Decide(d, w, snapshot, gates).eligible[0] != b
  {
    WinnerLeadsIff(d, w, snapshot, gates);
    PrecedesIsOrder(d, w, a, b, a);
  }

  // Whatever ranking the sort returns, b does not come first.
  ghost predicate NeverFirst(d: DemandProfile, w: Weights, keep: seq<Candidate>, b: Candidate) {
    forall ranked :: IsRanking(d, w, keep, ranked) && ranked != [] ==> ranked[0] != b
  }

  /** An eligible candidate that another eligible one with a smaller id dominates is kept from winning if and only
      if the survivors are comparable. */
  lemma DominatedNeverWinsIff(d: DemandProfile, w: Weights, snapshot: seq<Candidate>, gates: Candidate -> Gates, a: Candidate, b: Candidate)
    requires NonNegative(w) && DistinctIds(snapshot) && a in snapshot && b in snapshot
    requires Dominates(a, b) && HopsInRange(a) && HopsInRange(b) && AtLeastAsOpen(gates(a), gates(b))
    requires a.candidateId < b.candidateId && Filter(d, b, gates(b)) == Eligible
    ensures NeverFirst(d, w, Survivors(d, snapshot, gates), b) <==> Comparable(Survivors(d, snapshot, gates))
  {
    var keep := Survivors(d, snapshot, gates);
    if Comparable(keep) {
      DominatedNeverWins(d, w, snapshot, gates, a, b);
      forall ranked | IsRanking(d, w, keep, ranked) ensures ranked == RankedOrder(d, w, keep) {
        RankingIsOrder(d, w, keep, ranked);
      }
    } else {
      KeepMembers(Passes(d, gates), snapshot, b);
      AnyoneMayWin(d, w, keep, b);
    }
  }

  lemma AnyoneMayWin(d: DemandProfile, w: Weights, keep: seq<Candidate>, b: Candidate)
    requires b in keep && !AllScorable(keep)
    ensures !NeverFirst(d, w, keep, b)
  {
    var rest := Extract(keep, b);
    assert IsRanking(d, w, keep, [b] + rest) && ([b] + rest)[0] == b;
  }

  ghost predicate AscendingIds(cs: seq<Candidate>) {
    forall i, j :: 0 <= i < j < |cs| ==> cs[i].candidateId < cs[j].candidateId
  }

  lemma DominatorNotPreceded(d: DemandProfile, w: Weights, a: Candidate, b: Candidate)
    requires NonNegative(w) && Dominates(a, b) && HopsInRange(a) && HopsInRange(b) && a.candidateId < b.candidateId
    ensures !Precedes(d, w, b, a)
  {
    if Scorable(a) && Scorable(b) {
      DominantRanksFirst(d, a, b, w);
      PrecedesIsOrder(d, w, a, b, a);
    } else {
      NaNIsUncompared(d, w, a, b);
    }
  }

  /** With the snapshot in id order, as the scheduler lists it, a dominated candidate with the larger id is never
      first under the stable insertion sort, whether or not the survivors are comparable. */
  lemma DominatedNeverFirstInIdOrder(d: DemandProfile, w: Weights, snapshot: seq<Candidate>, gates: Candidate -> Gates, a: Candidate, b: Candidate)
    requires NonNegative(w) && AscendingIds(snapshot) && a in snapshot && b in snapshot
    requires Dominates(a, b) && HopsInRange(a) && HopsInRange(b) && AtLeastAsOpen(gates(a), gates(b))
    requires a.candidateId < b.candidateId
    ensures var ranked := Decide(d, w, snapshot, gates).eligible; ranked != [] ==> ranked[0] != b
  {
    DecisionPartitions(d, w, snapshot, gates);
    if b in Decide(d, w, snapshot, gates).eligible {
      DominantEligible(d, a, gates(a), b, gates(b));
      DominatorNotPreceded(d, w, a, b);
      InIdOrder(snapshot, a, b);
      EarlierIsFirst(d, w, snapshot, gates, a, b);
    }
  }

  lemma InIdOrder(snapshot: seq<Candidate>, a: Candidate, b: Candidate)
    requires AscendingIds(snapshot) && a in snapshot && b in snapshot && a.candidateId < b.candidateId
    ensures InTurn(snapshot, a, b)
  {
    var i :| 0 <= i < |snapshot| && snapshot[i] == a;
    var j :| 0 <= j < |snapshot| && snapshot[j] == b;
    assert i < j;
  }

  lemma EarlierIsFirst(d: DemandProfile, w: Weights, snapshot: seq<Candidate>, gates: Candidate -> Gates, a: Candidate, b: Candidate)
    requires DistinctIds(snapshot) && InTurn(snapshot, a, b) && !Precedes(d, w, b, a)
    requires Filter(d, a, gates(a)) == Eligible && Filter(d, b, gates(b)) == Eligible
    ensures var ranked := Decide(d, w, snapshot, gates).eligible; ranked != [] && ranked[0] != b
  {
    ListedFirst(d, w, a, b, snapshot, gates);
    SurvivorsDistinct(d, snapshot, gates);
    RankedDistinct(d, w, Survivors(d, snapshot, gates));
    MembersById(Decide(d, w, snapshot, gates).eligible);
    InTurnNotHead(Decide(d, w, snapshot, gates).eligible, a, b);
  }
}
