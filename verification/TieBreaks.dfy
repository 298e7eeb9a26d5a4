/** The comparator as a lexicographic order, and what each of its eight keys is. */
module TieBreaks {
  import opened Types
  import opened Doubles
  import opened Ranking
  import opened Domination
  import opened FactorCosts

  // --- the order of the keys ------------------------------------------------------------------

  /** The keys in the order they are compared, each the smaller the better. */
  function Keys(r: Ranked): seq<real>
    requires Numeric(r)
  {
    [r.score.value, r.unknownCount as real, -(r.evidenceStrength as real), r.movementCost.value, r.headroomCost.value,
     r.congestionCost.value, -(r.localResources as real), r.candidateId as real]
  }

  /** xs and ys agree before k, where xs has the smaller entry. */
  predicate SmallerAt(xs: seq<real>, ys: seq<real>, k: nat) {
    k < |xs| == |ys| && xs[..k] == ys[..k] && xs[k] < ys[k]
  }

  lemma FirstDifference(xs: seq<real>, ys: seq<real>, k: nat)
    requires |xs| == |ys| && k <= |xs|
    ensures xs[..k] == ys[..k] <==> forall i :: 0 <= i < k ==> xs[i] == ys[i]
  {
    if forall i :: 0 <= i < k ==> xs[i] == ys[i] {
      assert forall i :: 0 <= i < k ==> xs[..k][i] == ys[..k][i];
    } else {
      var i :| 0 <= i < k && xs[i] != ys[i];
      assert xs[..k][i] != ys[..k][i];
    }
  }

  lemma KeysAre(r: Ranked)
    requires Numeric(r)
    ensures |Keys(r)| == 8 && Keys(r)[0] == r.score.value && Keys(r)[1] == r.unknownCount as real
    ensures Keys(r)[2] == -(r.evidenceStrength as real) && Keys(r)[3] == r.movementCost.value
    ensures Keys(r)[4] == r.headroomCost.value && Keys(r)[5] == r.congestionCost.value
    ensures Keys(r)[6] == -(r.localResources as real) && Keys(r)[7] == r.candidateId as real
  {}

  lemma BeforeDiffers(a: Ranked, b: Ranked)
    requires Numeric(a) && Numeric(b) && Before(a, b)
    ensures exists k :: SmallerAt(Keys(a), Keys(b), k)
  {
    var xs, ys := Keys(a), Keys(b);
    KeysAre(a);
    KeysAre(b);
    var k := if xs[0] != ys[0] then 0 else if xs[1] != ys[1] then 1 else if xs[2] != ys[2] then 2
             else if xs[3] != ys[3] then 3 else if xs[4] != ys[4] then 4 else if xs[5] != ys[5] then 5
             else if xs[6] != ys[6] then 6 else 7;
    FirstDifference(xs, ys, k);
    assert SmallerAt(xs, ys, k);
  }

  lemma DiffersBefore(a: Ranked, b: Ranked, k: nat)
    requires Numeric(a) && Numeric(b) && SmallerAt(Keys(a), Keys(b), k)
    ensures Before(a, b)
  {
    var xs, ys := Keys(a), Keys(b);
    KeysAre(a);
    KeysAre(b);
    FirstDifference(xs, ys, k);
    assert k > 0 ==> xs[0] == ys[0];
    assert k > 1 ==> xs[1] == ys[1];
    assert k > 2 ==> xs[2] == ys[2];
    assert k > 3 ==> xs[3] == ys[3];
    assert k > 4 ==> xs[4] == ys[4];
    assert k > 5 ==> xs[5] == ys[5];
    assert k > 6 ==> xs[6] == ys[6];
  }

  /** Of two ranks that are numbers one precedes the other if and only if it has the smaller entry in the first key
      in which they differ. */
  lemma BeforeIsLexicographic(a: Ranked, b: Ranked)
    requires Numeric(a) && Numeric(b)
    ensures Before(a, b) <==> exists k :: SmallerAt(Keys(a), Keys(b), k)
  {
    if Before(a, b) { BeforeDiffers(a, b); }
    if k :| SmallerAt(Keys(a), Keys(b), k) { DiffersBefore(a, b, k); }
  }

  // --- the keys -------------------------------------------------------------------------------

  // No factor from m on is in the group.
  ghost predicate NoneFrom(g: Group, fs: seq<Factor>, m: nat) {
    forall i :: m <= i < |fs| ==> !InGroup(g, fs[i].kind)
  }

  lemma {:induction false} GroupSkips(g: Group, fs: seq<Factor>, m: nat)
    requires m <= |fs| && NoneFrom(g, fs, m)
    ensures GroupCost(g, fs) == GroupCost(g, fs[..m])
  {
    if m < |fs| {
      var front := fs[..|fs| - 1];
      GroupSkips(g, front, m);
      assert front[..m] == fs[..m];
    } else {
      assert fs[..m] == fs;
    }
  }

  lemma GroupTakes(g: Group, fs: seq<Factor>, m: nat)
    requires m < |fs| && InGroup(g, fs[m].kind)
    ensures GroupCost(g, fs[..m + 1]) == Plus(GroupCost(g, fs[..m]), fs[m].value)
  {
    assert fs[..m + 1][..m] == fs[..m];
  }

  // The kinds of a rank's factors, and their costs.
  ghost predicate ListsFactors(fs: seq<Factor>, d: DemandProfile, c: Candidate) {
    && |fs| == FACTOR_COUNT
    && forall i :: 0 <= i < FACTOR_COUNT ==> fs[i].kind == FACTOR_ORDER[i] && fs[i].value == CostOf(FACTOR_ORDER[i], d, c)
  }

  lemma RankLists(d: DemandProfile, c: Candidate, w: Weights)
    ensures ListsFactors(Rank(d, c, w).factors, d, c)
  {
    RankFactors(d, c, w);
  }

  lemma MovementKinds()
    ensures FACTOR_ORDER[16] == CheckpointMovementCost
    ensures forall i :: 0 <= i < FACTOR_COUNT && i != 16 ==> !InGroup(Movement, FACTOR_ORDER[i])
  {}

  lemma HeadroomKinds()
    ensures FACTOR_ORDER[0] == AcceleratorFit && FACTOR_ORDER[1] == ResourceHeadroom && FACTOR_ORDER[2] == VramHeadroom
    ensures FACTOR_ORDER[3] == CpuHeadroom && FACTOR_ORDER[4] == PinnedMemoryHeadroom
    ensures forall i :: 5 <= i < FACTOR_COUNT ==> !InGroup(Headroom, FACTOR_ORDER[i])
  {}

  lemma MovementOf(fs: seq<Factor>)
    requires |fs| > 16 && forall i :: 0 <= i < |fs| ==> (InGroup(Movement, fs[i].kind) <==> i == 16)
    ensures GroupCost(Movement, fs) == Plus(Finite(0.0), fs[16].value)
  {
    GroupSkips(Movement, fs, 17);
    GroupTakes(Movement, fs, 16);
    GroupSkips(Movement, fs[..16], 0);
    assert fs[..16][..0] == [];
  }

  lemma MovementFactors(fs: seq<Factor>, d: DemandProfile, c: Candidate)
    requires ListsFactors(fs, d, c)
    ensures forall i :: 0 <= i < |fs| ==> (InGroup(Movement, fs[i].kind) <==> i == 16)
    ensures fs[16].value == CostOf(CheckpointMovementCost, d, c)
  {
    MovementKinds();
  }

  lemma HeadroomOf(fs: seq<Factor>)
    requires |fs| > 5 && NoneFrom(Headroom, fs, 5) && !InGroup(Headroom, fs[0].kind)
    requires forall i :: 1 <= i < 5 ==> InGroup(Headroom, fs[i].kind) && fs[i].value.Finite?
    ensures GroupCost(Headroom, fs) == Finite(fs[1].value.value + fs[2].value.value + fs[3].value.value + fs[4].value.value)
  {
    GroupSkips(Headroom, fs, 5);
    GroupTakes(Headroom, fs, 4);
    GroupTakes(Headroom, fs, 3);
    HeadroomPair(fs);
  }

  lemma HeadroomPair(fs: seq<Factor>)
    requires |fs| > 2 && !InGroup(Headroom, fs[0].kind) && InGroup(Headroom, fs[1].kind) && InGroup(Headroom, fs[2].kind)
    requires fs[1].value.Finite? && fs[2].value.Finite?
    ensures GroupCost(Headroom, fs[..3]) == Finite(fs[1].value.value + fs[2].value.value)
  {
    GroupTakes(Headroom, fs, 2);
    GroupTakes(Headroom, fs, 1);
    GroupSkips(Headroom, fs[..1], 0);
    assert fs[..1][..0] == [];
  }

  lemma HeadroomFactors(fs: seq<Factor>, d: DemandProfile, c: Candidate)
    requires ListsFactors(fs, d, c)
    ensures NoneFrom(Headroom, fs, 5) && !InGroup(Headroom, fs[0].kind)
    ensures forall i :: 1 <= i < 5 ==> InGroup(Headroom, fs[i].kind)
    ensures fs[1].value == CostOf(ResourceHeadroom, d, c) && fs[2].value == CostOf(VramHeadroom, d, c)
    ensures fs[3].value == CostOf(CpuHeadroom, d, c) && fs[4].value == CostOf(PinnedMemoryHeadroom, d, c)
  {
    HeadroomKinds();
  }

  /** The movement key is the checkpoint-movement cost. */
  lemma MovementKey(d: DemandProfile, c: Candidate, w: Weights)
    ensures Rank(d, c, w).movementCost == CostOf(CheckpointMovementCost, d, c)
  {
    RankLists(d, c, w);
    MovementFactors(Rank(d, c, w).factors, d, c);
    MovementOf(Rank(d, c, w).factors);
    MovementCosts(d, c);
  }

  /** The headroom key adds the four headroom costs. */
  lemma HeadroomKey(d: DemandProfile, c: Candidate, w: Weights)
    ensures var x, y := CostOf(ResourceHeadroom, d, c), CostOf(VramHeadroom, d, c);
      var u, v := CostOf(CpuHeadroom, d, c), CostOf(PinnedMemoryHeadroom, d, c);
      && x.Finite? && y.Finite? && u.Finite? && v.Finite?
      && Rank(d, c, w).headroomCost == Finite(x.value + y.value + u.value + v.value)
  {
    RankLists(d, c, w);
    HeadroomFactors(Rank(d, c, w).factors, d, c);
    CapacityCosts(d, c);
    HeadroomOf(Rank(d, c, w).factors);
  }

  ghost function UnknownPlaces(fs: seq<Factor>): set<nat> {
    set i: nat | i < |fs| && fs[i].provenance == Unknown
  }

  lemma {:induction false} UnknownCounts(fs: seq<Factor>)
    ensures UnknownCount(fs) == |UnknownPlaces(fs)|
  {
    if fs != [] {
      var n := |fs| - 1;
      UnknownCounts(fs[..n]);
      assert UnknownPlaces(fs) == UnknownPlaces(fs[..n]) + if fs[n].provenance == Unknown then {n} else {};
    }
  }

  ghost function LocalPlaces(bs: seq<DeviceBinding>): set<nat> {
    set i: nat | i < |bs| && bs[i].memoryDomainId > 0
  }

  lemma {:induction false} LocalCounts(bs: seq<DeviceBinding>)
    ensures LocalBindings(bs) == |LocalPlaces(bs)|
  {
    if bs != [] {
      var n := |bs| - 1;
      LocalCounts(bs[..n]);
      assert LocalPlaces(bs) == LocalPlaces(bs[..n]) + if bs[n].memoryDomainId > 0 then {n} else {};
    }
  }

  /** The other keys: how many factors have unknown evidence, the congestion reading, how many bindings have a
      memory domain when the candidate is on its own NUMA node, and the id. */
  lemma CountedKeys(d: DemandProfile, c: Candidate, w: Weights)
    ensures var r := Rank(d, c, w);
      && r.unknownCount == |UnknownPlaces(r.factors)| && Within(r.congestionCost, Read(c).congestion)
      && r.localResources == (if c.locality.numaDistance == 0 then |LocalPlaces(c.bindings)| else 0)
      && r.candidateId == c.candidateId && r.candidateGeneration == c.candidateGeneration
  {
    UnknownCounts(Rank(d, c, w).factors);
    LocalCounts(c.bindings);
    ClampWithin(Read(c).congestion);
  }

  /** The provenance of each factor is that of the evidence it is computed from. */
  lemma FactorEvidence(k: RankFactorKind, c: Candidate)
    ensures var p := FactorProvenance(k, c);
      && (k in {AcceleratorFit, ResourceHeadroom, VramHeadroom, CpuHeadroom, PinnedMemoryHeadroom} ==> p == c.capacity.provenance)
      && (k in {TopologyLocality, NumaLocality, PcieLocality, NicLocality, StorageLocality} ==> p == c.locality.provenance)
      && (k == CommunicationCost ==> p == c.communication.provenance)
      && (k in {CongestionPenalty, ResidualBandwidth, EstimatedQueueing} ==> p == c.congestion.provenance)
      && (k in {ModelResidency, AdapterResidency, ReusableStateLocality} ==> p == c.residency.provenance)
      && (k in {CheckpointMovementCost, StartupCost, MigrationRecomputeCost} ==> p == c.residency.provenance)
      && (k == ReservationFit ==> p == c.reservation.provenance) && (k == HealthMargin ==> p == c.health.provenance)
      && (k == EnergyPower ==> p == Unknown) && (k in {FailureDomainDiversification, FragmentationImpact} ==> p == Synthetic)
      && (k in {ExternalPriority, PolicyPreference} ==> p == Reported)
  {}

  // --- the score ------------------------------------------------------------------------------

  // gs is fs but for the cost of factor i.
  ghost predicate DiffersAt(fs: seq<Factor>, gs: seq<Factor>, i: nat) {
    && |fs| == |gs| && i < |fs|
    && (forall k :: 0 <= k < |fs| ==> gs[k].weight == fs[k].weight && fs[k].value.Finite? && gs[k].value.Finite?)
    && (forall k :: 0 <= k < |fs| && k != i ==> gs[k].value == fs[k].value)
  }

  ghost predicate AllFiniteCosts(fs: seq<Factor>) {
    forall k :: 0 <= k < |fs| ==> fs[k].value.Finite?
  }

  lemma {:induction false} FiniteScore(fs: seq<Factor>)
    requires AllFiniteCosts(fs)
    ensures Score(fs).Finite?
  {
    if fs != [] { FiniteScore(fs[..|fs| - 1]); }
  }

  lemma {:induction false} SameScore(fs: seq<Factor>, gs: seq<Factor>)
    requires |fs| == |gs| && forall k :: 0 <= k < |fs| ==> gs[k].weight == fs[k].weight && gs[k].value == fs[k].value
    ensures Score(fs) == Score(gs)
  {
    if fs != [] { SameScore(fs[..|fs| - 1], gs[..|gs| - 1]); }
  }

  /** A change in one cost moves the score by the weight times that change. */
  lemma {:induction false} ScoreMoves(fs: seq<Factor>, gs: seq<Factor>, i: nat)
    requires DiffersAt(fs, gs, i)
    ensures Score(fs).Finite? && Score(gs).Finite?
    ensures Score(gs).value - Score(fs).value == fs[i].weight * (gs[i].value.value - fs[i].value.value)
  {
    var n := |fs| - 1;
    FiniteScore(fs[..n]);
    FiniteScore(gs[..n]);
    ScoreOf(fs);
    ScoreOf(gs);
    if i < n { ScoreMoves(fs[..n], gs[..n], i); } else { SameScore(fs[..n], gs[..n]); }
  }

  // --- the weights ----------------------------------------------------------------------------

  /** The default weights that are 1, factor by factor. */
  lemma UnitWeights(k: RankFactorKind)
    ensures var x := Weight(DEFAULT_WEIGHTS, k);
      && (k in {ResourceHeadroom, VramHeadroom, CpuHeadroom, PinnedMemoryHeadroom} ==> x == 1.0)
      && (k in {ResidualBandwidth, StartupCost, FragmentationImpact, ExternalPriority} ==> x == 1.0)
      && (k in {MigrationRecomputeCost, EstimatedQueueing, PolicyPreference} ==> x == 1.0)
  {}

  /** And the others. */
  lemma DefaultWeights(k: RankFactorKind)
    ensures var x := Weight(DEFAULT_WEIGHTS, k);
      && (k == AcceleratorFit ==> x == 0.0) && (k == EnergyPower ==> x == 0.5)
      && (k in {NicLocality, StorageLocality, FailureDomainDiversification} ==> x == 1.5)
      && (k in {TopologyLocality, NumaLocality, PcieLocality, AdapterResidency, ReusableStateLocality} ==> x == 2.0)
      && (k in {CheckpointMovementCost, ReservationFit, HealthMargin} ==> x == 2.0)
      && (k == CongestionPenalty ==> x == 2.5) && (k in {CommunicationCost, ModelResidency} ==> x == 3.0)
  {}

  // --- one difference -------------------------------------------------------------------------

  lemma OnlyModelDiffers(kind: RankFactorKind, d: DemandProfile, a: Candidate, b: Candidate)
    requires b == a.(candidateId := b.candidateId, residency := a.residency.(modelResident := false)) && kind != ModelResidency
    ensures CostOf(kind, d, a) == CostOf(kind, d, b)
  {}

  // b is a but for its id and the resident model.
  predicate LacksModel(a: Candidate, b: Candidate) {
    && b == a.(candidateId := b.candidateId, residency := a.residency.(modelResident := false))
    && a.residency.modelResident && a.residency.moveBytes == 0
  }

  lemma FactorsAgree(d: DemandProfile, a: Candidate, b: Candidate, k: nat)
    requires LacksModel(a, b) && Scorable(a) && Scorable(b) && k < FACTOR_COUNT
    ensures var fs, gs := Rank(d, a, DEFAULT_WEIGHTS).factors, Rank(d, b, DEFAULT_WEIGHTS).factors;
      && |fs| == |gs| == FACTOR_COUNT && gs[k].weight == fs[k].weight && fs[k].value.Finite? && gs[k].value.Finite?
      && (FACTOR_ORDER[k] != ModelResidency ==> gs[k].value == fs[k].value)
  {
    FactorIsNumber(d, a, DEFAULT_WEIGHTS, k);
    FactorIsNumber(d, b, DEFAULT_WEIGHTS, k);
    if FACTOR_ORDER[k] != ModelResidency { OnlyModelDiffers(FACTOR_ORDER[k], d, a, b); }
  }

  lemma ModelDiffersAt(d: DemandProfile, a: Candidate, b: Candidate)
    requires LacksModel(a, b) && Scorable(a) && Scorable(b)
    ensures DiffersAt(Rank(d, a, DEFAULT_WEIGHTS).factors, Rank(d, b, DEFAULT_WEIGHTS).factors, OrderIndex(ModelResidency))
  {
    var fs, gs := Rank(d, a, DEFAULT_WEIGHTS).factors, Rank(d, b, DEFAULT_WEIGHTS).factors;
    FactorsAgree(d, a, b, 0);
    forall k: nat | k < FACTOR_COUNT
      ensures gs[k].weight == fs[k].weight && fs[k].value.Finite? && gs[k].value.Finite?
      ensures k != OrderIndex(ModelResidency) ==> gs[k].value == fs[k].value
    {
      FactorsAgree(d, a, b, k);
      NoKindTwice(k);
    }
  }

  /** Of two candidates alike but for their ids and a resident model, with nothing to move, the one without the
      model scores 3 * 0.5 more under the default weights, and comes later whatever the ids. */
  lemma ResidencyDecides(d: DemandProfile, a: Candidate, b: Candidate)
    requires LacksModel(a, b) && Scorable(a)
    ensures var x, y := Rank(d, a, DEFAULT_WEIGHTS).score, Rank(d, b, DEFAULT_WEIGHTS).score;
      x.Finite? && y.Finite? && y.value - x.value == 1.5
    ensures Before(Rank(d, a, DEFAULT_WEIGHTS), Rank(d, b, DEFAULT_WEIGHTS))
  {
    var i := OrderIndex(ModelResidency);
    assert Read(b) == Read(a);
    ModelDiffersAt(d, a, b);
    ScoreMoves(Rank(d, a, DEFAULT_WEIGHTS).factors, Rank(d, b, DEFAULT_WEIGHTS).factors, i);
    FactorIsNumber(d, a, DEFAULT_WEIGHTS, i);
    FactorIsNumber(d, b, DEFAULT_WEIGHTS, i);
    ModelCosts(d, a, b);
  }

  lemma ModelCosts(d: DemandProfile, a: Candidate, b: Candidate)
    requires a.residency.modelResident && !b.residency.modelResident && b.residency.moveBytes == 0
    ensures CostOf(ModelResidency, d, a) == Finite(0.0) && CostOf(ModelResidency, d, b) == Finite(0.5)
    ensures Weight(DEFAULT_WEIGHTS, ModelResidency) == 3.0
  {
    ConstantCosts(d, a);
    ConstantCosts(d, b);
    DefaultWeights(ModelResidency);
  }
}
