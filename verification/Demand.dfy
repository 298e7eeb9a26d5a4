/** DemandProfile::validate and the 64-bit VRAM products that depend on what it accepts. */
module Demand {
  import opened Types
  import opened Doubles

  const MAX_BYTES: nat := 0x1000_0000_0000               // 16 TiB
  const MAX_COUNT: nat := 0x10_0000
  const MAX_HORIZON: nat := 30 * 24 * 60 * 60 * 1_000_000_000
  const LOCALITY_KINDS: nat := 5

  function Wrap64(n: nat): nat {
    n % U64_LIMIT
  }

  // accelerator.vramPerDevice.value() * minimumCount, as the 64-bit product C++ computes.
  function VramProduct(a: AcceleratorRequirement): nat {
    Wrap64(a.vramPerDevice * a.minimumCount)
  }

  function SaturatingMul(a: nat, b: nat): nat {
    if a == 0 || b == 0 then 0
    else if a > (U64_LIMIT - 1) / b then U64_LIMIT - 1
    else a * b
  }

  function CountError(a: AcceleratorRequirement): Option<ErrorCode> {
    if a.maximumCount > 0 && a.minimumCount > a.maximumCount then Some(InvalidCountRange)
    else if a.targetCount > 0 && (a.minimumCount > a.targetCount || (a.maximumCount > 0 && a.targetCount > a.maximumCount)) then
      Some(InvalidCountRange)
    else if a.minimumCount > MAX_COUNT || a.maximumCount > MAX_COUNT || a.targetCount > MAX_COUNT then
      Some(InvalidCountRange)
    else if a.minimumCount > 0 && a.capability == NoAccelerator then Some(InvalidDemand)
    else None
  }

  predicate BytesBounded(d: DemandProfile) {
    && d.accelerator.vramPerDevice <= MAX_BYTES
    && d.accelerator.aggregateVram <= MAX_BYTES
    && d.memory.hostMemory <= MAX_BYTES
    && d.memory.pinnedMemory <= MAX_BYTES
    && d.storage.capacity <= MAX_BYTES
    && d.network.bandwidth <= MAX_BYTES
    && d.communicationBytes <= MAX_BYTES
    && d.maximumMovementCost <= MAX_BYTES
  }

  // The scan of the fallback list, `seen` being the kinds already met.
  function LocalityError(ls: seq<nat>, seen: set<nat>): Option<ErrorCode> {
    if ls == [] then None
    else if ls[0] >= LOCALITY_KINDS || ls[0] in seen then Some(MalformedLocalityConstraint)
    else LocalityError(ls[1..], seen + {ls[0]})
  }

  function DemandError(d: DemandProfile): Option<ErrorCode> {
    var a := d.accelerator;
    if CountError(a).Some? then CountError(a)
    else if !BytesBounded(d) then Some(Overflow)
    else if a.minimumCount > 0 && a.aggregateVram > 0 && a.aggregateVram < VramProduct(a) then Some(InvalidDemand)
    else if d.expectedExecutionDuration > MAX_HORIZON then Some(ImpossibleDuration)
    else if !IsZero(d.throughputObjective) && (!IsFinite(d.throughputObjective) || SignBit(d.throughputObjective)) then
      Some(NonFinite)
    else if LocalityError(d.fallbackLocalities, {}).Some? then LocalityError(d.fallbackLocalities, {})
    else if d.workloadId == 0 || d.demandId == 0 then Some(InvalidDemand)
    else if d.workloadGeneration == 0 || d.demandGeneration == 0 then Some(InvalidDemand)
    else None
  }

  method Validate(d: DemandProfile) returns (e: Option<ErrorCode>)
    ensures e == DemandError(d)
  {
    var a := d.accelerator;
    e := CountError(a);
    if e.Some? { return; }
    if !BytesBounded(d) { return Some(Overflow); }
    if a.minimumCount > 0 && a.aggregateVram > 0 && a.aggregateVram < VramProduct(a) { return Some(InvalidDemand); }
    if d.expectedExecutionDuration > MAX_HORIZON { return Some(ImpossibleDuration); }
    if !IsZero(d.throughputObjective) {
      if !IsFinite(d.throughputObjective) || SignBit(d.throughputObjective) { return Some(NonFinite); }
    }
    var ls := d.fallbackLocalities;
    var seen := new bool[LOCALITY_KINDS](_ => false);
    ghost var met: set<nat> := {};
    var i := 0;
    while i < |ls|
      invariant 0 <= i <= |ls|
      invariant forall k: nat :: k < LOCALITY_KINDS ==> (seen[k] <==> k in met)
      invariant LocalityError(ls, {}) == LocalityError(ls[i..], met)
    {
      assert ls[i..][0] == ls[i] && ls[i..][1..] == ls[i + 1..];
      if ls[i] >= LOCALITY_KINDS { return Some(MalformedLocalityConstraint); }
      if seen[ls[i]] { return Some(MalformedLocalityConstraint); }
      seen[ls[i]] := true;
      met := met + {ls[i]};
      i := i + 1;
    }
    if d.workloadId == 0 || d.demandId == 0 { return Some(InvalidDemand); }
    if d.workloadGeneration == 0 || d.demandGeneration == 0 { return Some(InvalidDemand); }
    return None;
  }

  // --- what acceptance means ------------------------------------------------------------------

  ghost predicate DistinctKinds(ls: seq<nat>) {
    && (forall i :: 0 <= i < |ls| ==> ls[i] < 5)
    && (forall i, j :: 0 <= i < j < |ls| ==> ls[i] != ls[j])
  }

  lemma {:induction false} LocalityScan(ls: seq<nat>, seen: set<nat>)
    ensures LocalityError(ls, seen).None? <==> DistinctKinds(ls) && forall i :: 0 <= i < |ls| ==> ls[i] !in seen
  {
    if ls != [] {
      var rest := ls[1..];
      LocalityScan(rest, seen + {ls[0]});
      assert forall i :: 0 <= i < |rest| ==> rest[i] == ls[i + 1];
      if DistinctKinds(ls) && forall i :: 0 <= i < |ls| ==> ls[i] !in seen {
        assert forall i :: 0 <= i < |rest| ==> rest[i] !in seen + {ls[0]};
      }
      if LocalityError(ls, seen).None? {
        forall i, j | 0 <= i < j < |ls| ensures ls[i] != ls[j] {
          assert ls[j] == rest[j - 1];
          if i > 0 { assert ls[i] == rest[i - 1]; }
        }
        forall i | 0 <= i < |ls| ensures ls[i] < LOCALITY_KINDS && ls[i] !in seen {
          if i > 0 { assert ls[i] == rest[i - 1]; }
        }
      }
    }
  }

  // The one accepted corner where the 64-bit product is not the product.
  predicate WrapsToZero(a: AcceleratorRequirement) {
    a.vramPerDevice == MAX_BYTES && a.minimumCount == MAX_COUNT
  }

  lemma MulMonotone(a: nat, b: nat, c: nat, d: nat)
    requires a <= b && c <= d
    ensures a * c <= b * d
  {
    assert b * d - a * c == (b - a) * d + a * (d - c);
    assert (b - a) * d >= 0 && a * (d - c) >= 0;
  }

  lemma ProductBound(v: nat, m: nat)
    requires v <= MAX_BYTES && m <= MAX_COUNT
    ensures v * m <= U64_LIMIT
    ensures v * m == U64_LIMIT <==> v == MAX_BYTES && m == MAX_COUNT
  {
    if v < MAX_BYTES {
      MulMonotone(v, MAX_BYTES - 1, m, MAX_COUNT);
    } else if m < MAX_COUNT {
      MulMonotone(v, MAX_BYTES, m, MAX_COUNT - 1);
    }
  }

  lemma SaturatingMulIsMin(a: nat, b: nat)
    ensures SaturatingMul(a, b) == if a * b < U64_LIMIT then a * b else U64_LIMIT - 1
  {
    if b > 0 { QuotientTest(a, b, U64_LIMIT - 1); }
  }

  // The overflow test a > lim / b is exact.
  lemma QuotientTest(a: nat, b: nat, lim: nat)
    requires b > 0
    ensures a > lim / b <==> a * b > lim
  {
    var q, r := lim / b, lim % b;
    assert lim == q * b + r;
    if a > q { MulMonotone(q + 1, a, b, b); } else { MulMonotone(a, q, b, b); }
  }

  /** For an accepted demand the wrapped products in validate and in the ranker, and the hard filter's
      saturating product, are all the integer product; the single exception is 2^44 bytes on 2^20
      devices, where the first two are 0 and the saturating one is 2^64 - 1. */
  lemma VramProductExact(d: DemandProfile)
    requires DemandError(d).None?
    ensures var a := d.accelerator;
      if WrapsToZero(a) then
        VramProduct(a) == 0 && SaturatingMul(a.vramPerDevice, a.minimumCount) == U64_LIMIT - 1
      else
        VramProduct(a) == a.vramPerDevice * a.minimumCount == SaturatingMul(a.vramPerDevice, a.minimumCount)
  {
    var a := d.accelerator;
    ProductBound(a.vramPerDevice, a.minimumCount);
    SaturatingMulIsMin(a.vramPerDevice, a.minimumCount);
  }

  /** The device counts are in order and at most 2^20. */
  predicate CountsInOrder(a: AcceleratorRequirement) {
    && (a.maximumCount > 0 ==> a.minimumCount <= a.maximumCount)
    && (a.targetCount > 0 ==> a.minimumCount <= a.targetCount && (a.maximumCount > 0 ==> a.targetCount <= a.maximumCount))
    && a.minimumCount <= 1024 * 1024 && a.targetCount <= 1024 * 1024 && a.maximumCount <= 1024 * 1024
  }

  /** Demanded devices have a class. */
  predicate Classed(a: AcceleratorRequirement) {
    a.minimumCount > 0 ==> a.capability != NoAccelerator
  }

  // Every byte quantity of a demand.
  function ByteAmounts(d: DemandProfile): seq<nat> {
    [d.accelerator.vramPerDevice, d.accelerator.aggregateVram, d.memory.hostMemory, d.memory.pinnedMemory,
     d.storage.capacity, d.network.bandwidth, d.communicationBytes, d.maximumMovementCost]
  }

  predicate AtMost16TiB(ns: seq<nat>) {
    forall i :: 0 <= i < |ns| ==> ns[i] <= 16 * 1024 * 1024 * 1024 * 1024
  }

  /** The aggregate covers all demanded devices, but for the one product that wraps. */
  predicate AggregateCovers(a: AcceleratorRequirement) {
    a.minimumCount > 0 && a.aggregateVram > 0 && !WrapsToZero(a) ==> a.vramPerDevice * a.minimumCount <= a.aggregateVram
  }

  predicate WithinHorizon(d: DemandProfile) {
    d.expectedExecutionDuration <= 30 * 24 * 3600 * 1_000_000_000
  }

  // Zero, or finite and not negative.
  predicate FairObjective(d: DemandProfile) {
    IsZero(d.throughputObjective) || (IsFinite(d.throughputObjective) && !SignBit(d.throughputObjective))
  }

  predicate Named(d: DemandProfile) {
    d.workloadId > 0 && d.demandId > 0 && d.workloadGeneration > 0 && d.demandGeneration > 0
  }

  /** What acceptance promises, over the integers; both directions. */
  ghost predicate WellFormedDemand(d: DemandProfile) {
    && CountsInOrder(d.accelerator) && Classed(d.accelerator) && AtMost16TiB(ByteAmounts(d)) && AggregateCovers(d.accelerator)
    && WithinHorizon(d) && FairObjective(d) && DistinctKinds(d.fallbackLocalities) && Named(d)
  }

  lemma BoundedIff(d: DemandProfile)
    ensures BytesBounded(d) <==> AtMost16TiB(ByteAmounts(d))
  {
    var ns := ByteAmounts(d);
    assert ns[0] == d.accelerator.vramPerDevice && ns[1] == d.accelerator.aggregateVram && ns[2] == d.memory.hostMemory;
    assert ns[3] == d.memory.pinnedMemory && ns[4] == d.storage.capacity && ns[5] == d.network.bandwidth;
    assert ns[6] == d.communicationBytes && ns[7] == d.maximumMovementCost;
  }

  lemma AggregateIff(a: AcceleratorRequirement)
    requires a.vramPerDevice <= MAX_BYTES && a.minimumCount <= MAX_COUNT
    ensures a.minimumCount > 0 && a.aggregateVram > 0 && a.aggregateVram < VramProduct(a) <==> !AggregateCovers(a)
  {
    ProductBound(a.vramPerDevice, a.minimumCount);
  }

  /** A demand is accepted if and only if it is well formed, and otherwise the error names the first thing that is
      wrong: the counts, the class, a byte quantity, the aggregate, the horizon, the objective, the localities, or a
      missing id. */
  lemma AcceptedIffWellFormed(d: DemandProfile)
    ensures DemandError(d).None? <==> WellFormedDemand(d)
    ensures DemandError(d) == FirstFault(d)
  {
    LocalityScan(d.fallbackLocalities, {});
    LocalityFault(d.fallbackLocalities, {});
    BoundedIff(d);
    if BytesBounded(d) && d.accelerator.minimumCount <= MAX_COUNT { AggregateIff(d.accelerator); }
  }

  ghost function FirstFault(d: DemandProfile): Option<ErrorCode> {
    if !CountsInOrder(d.accelerator) then Some(InvalidCountRange)
    else if !Classed(d.accelerator) then Some(InvalidDemand)
    else if !AtMost16TiB(ByteAmounts(d)) then Some(Overflow)
    else if !AggregateCovers(d.accelerator) then Some(InvalidDemand)
    else if !WithinHorizon(d) then Some(ImpossibleDuration)
    else if !FairObjective(d) then Some(NonFinite)
    else if !DistinctKinds(d.fallbackLocalities) then Some(MalformedLocalityConstraint)
    else if !Named(d) then Some(InvalidDemand)
    else None
  }

  lemma {:induction false} LocalityFault(ls: seq<nat>, seen: set<nat>)
    ensures LocalityError(ls, seen).Some? ==> LocalityError(ls, seen) == Some(MalformedLocalityConstraint)
  {
    if ls != [] { LocalityFault(ls[1..], seen + {ls[0]}); }
  }

  // 2^20 devices of 2^44 bytes each and nothing else.
  const CornerDemand: DemandProfile := DemandProfile(
    1, 1, 1, 1, AcceleratorRequirement(Cuda, MAX_COUNT, 0, 0, MAX_BYTES, 0, false, 0), 0, MemoryRequirement(0, 0),
    StorageRequirement(0, false), NetworkRequirement(0, false), 0, 0, 0,
    ResidencyRequirement(false, false, false, [], [], []), FailureDomainConstraint(0, false, false), 0, 0, 0, 0, 0,
    0, 0, 0, 0, [], Measured)

  /** The wrapping corner is a demand that validation accepts: its 64-bit VRAM product is 0. */
  lemma CornerIsAccepted()
    ensures DemandError(CornerDemand).None? && WrapsToZero(CornerDemand.accelerator) && VramProduct(CornerDemand.accelerator) == 0
  {
    VramProductExact(CornerDemand);
  }
}
