/**
  The records the scheduler passes around: demands, candidates with their evidence, and placement
  plans.  Identities, generations and byte quantities are naturals (zero is the "not assigned"
  sentinel of a strong id); a `std::string` is a sequence of bytes; a `double` is its 64-bit pattern.
*/
module Types {
  type Byte = n: nat | n < 256

  type Text = seq<Byte>

  // The IEEE-754 bit pattern of a double; module Doubles gives its value.
  type Double = nat

  const U32_LIMIT: nat := 0x1_0000_0000
  const U64_LIMIT: nat := 0x1_0000_0000_0000_0000

  datatype Option<+T> = None | Some(value: T)

  datatype ErrorCode =
    | InvalidArgument | InvalidDemand | NonFinite | Overflow | InvalidCountRange | ImpossibleDuration
    | MalformedLocalityConstraint | IllegalLifecycleTransition | StaleAuthority | UnknownState
    | UnsupportedVersion | Corruption | MalformedFrame | OversizedFrame | ChecksumMismatch | Truncation

  datatype Result<+T> = Ok(value: T) | Err(error: ErrorCode)

  // --- enumerations ---------------------------------------------------------------------------

  datatype AcceleratorClass = NoAccelerator | Cuda | Rocm | Metal | Vulkan | NoneRequired

  datatype Provenance = Measured | Reported | Derived | Estimated | Forecast | Synthetic | Unknown

  datatype ResourceKind =
    | Accelerator | CpuCore | HostMemory | PinnedMemory | Nic | Storage | LinkBandwidth | ModelResident

  datatype RankFactorKind =
    | AcceleratorFit | ResourceHeadroom | VramHeadroom | CpuHeadroom | PinnedMemoryHeadroom
    | TopologyLocality | NumaLocality | PcieLocality | NicLocality | StorageLocality
    | CommunicationCost | CongestionPenalty | ResidualBandwidth | ModelResidency | AdapterResidency
    | ReusableStateLocality | CheckpointMovementCost | StartupCost | ReservationFit
    | FailureDomainDiversification | HealthMargin | EnergyPower | FragmentationImpact
    | ExternalPriority | MigrationRecomputeCost | EstimatedQueueing | PolicyPreference

  datatype EligibilityStatus =
    | Eligible | RejectCapacity | RejectMemory | RejectContiguity | RejectCapability
    | RejectHealth | RejectTopology | RejectNuma | RejectPcie | RejectNetwork
    | RejectStorage | RejectReservation | RejectDependency | RejectCompatibility
    | RejectFailureDomain | RejectPolicy | NeedsRevalidation | InsufficientEvidence | StatusUnknown

  datatype LifecycleState =
    | Requested | Discovering | FilteringState | RankingState | PlanReady | AwaitingResourceCommit
    | Committed | AwaitingExecution | Active | RevalidationRequired | Superseded | Cancelled
    | Failed | Retired

  // --- demand ---------------------------------------------------------------------------------

  datatype AcceleratorRequirement = AcceleratorRequirement(
    capability: AcceleratorClass, minimumCount: nat, targetCount: nat, maximumCount: nat,
    vramPerDevice: nat, aggregateVram: nat, requiresContiguousMemory: bool, capabilityGeneration: nat)

  datatype MemoryRequirement = MemoryRequirement(hostMemory: nat, pinnedMemory: nat)

  datatype StorageRequirement = StorageRequirement(capacity: nat, requireLocal: bool)

  datatype NetworkRequirement = NetworkRequirement(bandwidth: nat, requireNic: bool)

  datatype ResidencyRequirement = ResidencyRequirement(
    requireModelResident: bool, requireAdapterResident: bool, requireStateLocal: bool,
    modelPath: Text, adapterPath: Text, statePath: Text)

  datatype FailureDomainConstraint = FailureDomainConstraint(
    minimumDistinctDomains: nat, avoidColocation: bool, avoidSingleRoot: bool)

  // The communication pattern, latency sensitivity and fallback localities steer no decision, so
  // they stay as the enumeration codes the codec writes.
  datatype DemandProfile = DemandProfile(
    demandId: nat, demandGeneration: nat, workloadId: nat, workloadGeneration: nat,
    accelerator: AcceleratorRequirement, cpuRequired: nat, memory: MemoryRequirement,
    storage: StorageRequirement, network: NetworkRequirement, requiredTopologyGeneration: nat,
    communication: nat, communicationBytes: nat, residency: ResidencyRequirement,
    failureDomains: FailureDomainConstraint, expectedExecutionDuration: nat, latencySensitivity: nat,
    throughputObjective: Double, externalPriority: int, externalPriorityOrdinal: nat,
    sloGeneration: nat, policyGeneration: nat, priorityGeneration: nat, maximumMovementCost: nat,
    fallbackLocalities: seq<nat>, provenance: Provenance)

  datatype SchedulingRequest = SchedulingRequest(
    requestId: nat, generation: nat, demand: DemandProfile, coordinatorEpoch: nat,
    sourceId: nat, sourceBootId: nat, submitOrdinal: nat)

  // --- candidate ------------------------------------------------------------------------------

  datatype DeviceBinding = DeviceBinding(
    deviceId: nat, deviceGeneration: nat, resourceId: nat, resourceGeneration: nat,
    nodeId: nat, nodeGeneration: nat, memoryDomainId: nat, memoryDomainGeneration: nat,
    nicId: nat, nicGeneration: nat, storageId: nat, storageGeneration: nat,
    cpuDomainId: nat, cpuDomainGeneration: nat, pcieRoot: Text, sharesPcieRoot: bool,
    capability: AcceleratorClass, cudaCompatibility: int, capabilityCurrent: bool,
    capabilityGeneration: nat)

  datatype CapacityEvidence = CapacityEvidence(
    generation: nat, vramTotal: nat, vramUsed: nat, vramAvailable: nat, hostMemoryAvailable: nat,
    pinnedMemoryAvailable: nat, cpuAvailable: nat, storageAvailable: nat,
    nicBandwidthAvailable: nat, contiguousMemory: bool, provenance: Provenance)

  datatype HealthEvidence = HealthEvidence(
    generation: nat, ready: bool, healthScore: Double, degradationReason: Text,
    provenance: Provenance)

  datatype ReservationEvidence = ReservationEvidence(
    generation: nat, protectedResource: bool, reservedBytes: nat, reservationId: Text,
    provenance: Provenance)

  datatype CongestionEvidence = CongestionEvidence(
    generation: nat, congestion: Double, residualBandwidth: Double, bandwidthNominal: nat,
    bottleneck: Text, provenance: Provenance)

  datatype LocalityEvidence = LocalityEvidence(
    topologyGeneration: nat, numaDistance: nat, pcieHops: nat, sharesPcieRoot: bool,
    nicDistance: nat, storageDistance: nat, topologyGroup: Text, provenance: Provenance)

  datatype CommunicationEvidence = CommunicationEvidence(
    planGeneration: nat, estimatedCost: Double, derivedPathCost: Double, collectiveCost: Double,
    pathFeasible: bool, planId: Text, provenance: Provenance)

  datatype ResidencyEvidence = ResidencyEvidence(
    residencyGeneration: nat, modelResident: bool, adapterResident: bool, stateLocal: bool,
    moveBytes: nat, moveSource: Text, provenance: Provenance)

  datatype Candidate = Candidate(
    candidateId: nat, candidateGeneration: nat, sourceId: nat, sourceBootId: nat,
    workerId: nat, workerBootId: nat, provenance: Provenance, bindings: seq<DeviceBinding>,
    capacity: CapacityEvidence, health: HealthEvidence, reservation: ReservationEvidence,
    congestion: CongestionEvidence, locality: LocalityEvidence,
    communication: CommunicationEvidence, residency: ResidencyEvidence,
    policyGeneration: nat, memoryMovementCost: Double)

  // --- plan -----------------------------------------------------------------------------------

  datatype ResourceClaim = ResourceClaim(
    resourceId: nat, resourceGeneration: nat, kind: ResourceKind, amount: nat, provisional: bool)

  datatype RejectedAlternative = RejectedAlternative(
    candidateId: nat, candidateGeneration: nat, status: EligibilityStatus, reason: Text)

  // A rank factor as a plan stores it: value and weight are bit patterns.
  datatype RankFactor = RankFactor(
    kind: RankFactorKind, value: Double, weight: Double, provenance: Provenance, description: Text)

  datatype GenerationFingerprint = GenerationFingerprint(
    topology: nat, capacity: nat, reservation: nat, congestion: nat, capability: nat, health: nat,
    residency: nat, communicationPlan: nat, policy: nat, resource: nat, dependency: nat,
    coordinatorEpoch: nat)

  datatype HistoryEntry = HistoryEntry(state: LifecycleState, ordinal: nat)

  datatype PlacementPlan = PlacementPlan(
    planId: nat, planGeneration: nat, requestId: nat, requestGeneration: nat,
    selectedCandidate: nat, selectedCandidateGeneration: nat, fallbackCandidates: seq<nat>,
    bindings: seq<DeviceBinding>, claims: seq<ResourceClaim>,
    communicationPlan: nat, communicationPlanId: Text,
    movementBytes: nat, movementSource: Text, residencyPrerequisite: bool,
    selectedFactors: seq<RankFactor>, rejectedAlternatives: seq<RejectedAlternative>,
    generations: GenerationFingerprint, policyGeneration: nat, authorityGeneration: nat,
    state: LifecycleState, stateHistory: seq<HistoryEntry>, coordinatorEpoch: nat,
    supersededBy: nat, supersessionReason: Text, hasCommitmentEvidence: bool)

  // --- the durable snapshot -------------------------------------------------------------------

  datatype CandidateIdentity = CandidateIdentity(
    candidateId: nat, candidateGeneration: nat, sourceId: nat, sourceBootId: nat,
    workerId: nat, workerBootId: nat)

  datatype Persisted = Persisted(
    formatVersion: nat, epoch: nat, authority: nat, nextPlanId: nat, nextSubmitOrdinal: nat,
    nextEventOrdinal: nat, ingestWatermark: nat, requests: seq<SchedulingRequest>,
    plans: seq<PlacementPlan>, candidateIdentities: seq<CandidateIdentity>,
    supersessionHistory: seq<Text>, cancelledRequests: set<nat>)
}
