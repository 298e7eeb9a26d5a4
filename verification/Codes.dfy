/** The numbers the enumerations are written as.  A code out of range, which the decoder rejects before it gets
    here, reads as the last enumerator. */
module Codes {
  import opened Types
  import opened Ranking

  function ClassCode(x: AcceleratorClass): (n: nat)
    ensures n <= 5 && ClassOf(n) == x
  {
    match x
    case NoAccelerator => 0 case Cuda => 1 case Rocm => 2 case Metal => 3 case Vulkan => 4 case NoneRequired => 5
  }

  function ClassOf(n: nat): AcceleratorClass {
    if n == 0 then NoAccelerator else if n == 1 then Cuda else if n == 2 then Rocm else if n == 3 then Metal else
    if n == 4 then Vulkan else NoneRequired
  }

  function ProvenanceCode(x: Provenance): (n: nat)
    ensures n <= 6 && ProvenanceOf(n) == x
  {
    match x
    case Measured => 0 case Reported => 1 case Derived => 2 case Estimated => 3 case Forecast => 4
    case Synthetic => 5 case Unknown => 6
  }

  function ProvenanceOf(n: nat): Provenance {
    if n == 0 then Measured else if n == 1 then Reported else if n == 2 then Derived else
    if n == 3 then Estimated else if n == 4 then Forecast else if n == 5 then Synthetic else Unknown
  }

  function KindCode(x: ResourceKind): (n: nat)
    ensures n <= 7 && KindOf(n) == x
  {
    match x
    case Accelerator => 0 case CpuCore => 1 case HostMemory => 2 case PinnedMemory => 3 case Nic => 4
    case Storage => 5 case LinkBandwidth => 6 case ModelResident => 7
  }

  function KindOf(n: nat): ResourceKind {
    if n == 0 then Accelerator else if n == 1 then CpuCore else if n == 2 then HostMemory else
    if n == 3 then PinnedMemory else if n == 4 then Nic else if n == 5 then Storage else
    if n == 6 then LinkBandwidth else ModelResident
  }

  function StateCode(x: LifecycleState): (n: nat)
    ensures n <= 13 && StateOf(n) == x
  {
    match x
    case Requested => 0 case Discovering => 1 case FilteringState => 2 case RankingState => 3 case PlanReady => 4
    case AwaitingResourceCommit => 5 case Committed => 6 case AwaitingExecution => 7 case Active => 8
    case RevalidationRequired => 9 case Superseded => 10 case Cancelled => 11 case Failed => 12 case Retired => 13
  }

  function StateOf(n: nat): LifecycleState {
    if n == 0 then Requested else if n == 1 then Discovering else if n == 2 then FilteringState else
    if n == 3 then RankingState else if n == 4 then PlanReady else if n == 5 then AwaitingResourceCommit else
    if n == 6 then Committed else if n == 7 then AwaitingExecution else if n == 8 then Active else
    if n == 9 then RevalidationRequired else if n == 10 then Superseded else if n == 11 then Cancelled else
    if n == 12 then Failed else Retired
  }

  function StatusCode(x: EligibilityStatus): (n: nat)
    ensures n <= 18 && StatusOf(n) == x
  {
    match x
    case Eligible => 0 case RejectCapacity => 1 case RejectMemory => 2 case RejectContiguity => 3
    case RejectCapability => 4 case RejectHealth => 5 case RejectTopology => 6 case RejectNuma => 7
    case RejectPcie => 8 case RejectNetwork => 9 case RejectStorage => 10 case RejectReservation => 11
    case RejectDependency => 12 case RejectCompatibility => 13 case RejectFailureDomain => 14 case RejectPolicy => 15
    case NeedsRevalidation => 16 case InsufficientEvidence => 17 case StatusUnknown => 18
  }

  function StatusOf(n: nat): EligibilityStatus {
    if n == 0 then Eligible else if n == 1 then RejectCapacity else if n == 2 then RejectMemory else
    if n == 3 then RejectContiguity else if n == 4 then RejectCapability else if n == 5 then RejectHealth else
    if n == 6 then RejectTopology else if n == 7 then RejectNuma else if n == 8 then RejectPcie else
    if n == 9 then RejectNetwork else if n == 10 then RejectStorage else if n == 11 then RejectReservation else
    if n == 12 then RejectDependency else if n == 13 then RejectCompatibility else
    if n == 14 then RejectFailureDomain else if n == 15 then RejectPolicy else if n == 16 then NeedsRevalidation else
    if n == 17 then InsufficientEvidence else StatusUnknown
  }

  // RankFactorKind, as a u16; rank_factor_index is the identity on the written codes.
  function FactorCode(x: RankFactorKind): (n: nat)
    ensures n <= 26 && FactorKindOf(n) == x
  {
    OrderIndex(x)
  }

  function FactorKindOf(n: nat): RankFactorKind {
    if n < FACTOR_COUNT then FACTOR_ORDER[n] else PolicyPreference
  }
}
