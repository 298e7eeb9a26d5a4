/** The hard filter: every demanded constraint, in the order it is tested. */
module Eligibility {
  import opened Types
  import opened Demand

  /** The answers a filter call gets from the dependency view and the policy veto; `None` is a null
      pointer, which means the test is skipped. */
  datatype Gates = Gates(ready: Option<bool>, allows: Option<bool>)

  predicate Offers(b: DeviceBinding, capability: AcceleratorClass) {
    b.capability == capability && b.capabilityCurrent
  }

  predicate HasNic(b: DeviceBinding) {
    b.nicId != 0 && b.nicGeneration != 0
  }

  function RequiredVram(a: AcceleratorRequirement): nat {
    if a.aggregateVram > 0 then a.aggregateVram else SaturatingMul(a.vramPerDevice, a.minimumCount)
  }

  function Filter(d: DemandProfile, c: Candidate, g: Gates): EligibilityStatus {
    var a := d.accelerator;
    var compute := a.minimumCount > 0;
    if compute && c.bindings == [] then InsufficientEvidence
    else if compute && c.capacity.provenance == Unknown then InsufficientEvidence
    else if c.health.provenance == Unknown then InsufficientEvidence
    else if compute && !(exists b :: b in c.bindings && Offers(b, a.capability)) then RejectCapability
    else if compute && c.capacity.vramAvailable < RequiredVram(a) then RejectCapacity
    else if c.capacity.cpuAvailable < d.cpuRequired then RejectCapacity
    else if c.capacity.hostMemoryAvailable < d.memory.hostMemory then RejectCapacity
    else if c.capacity.pinnedMemoryAvailable < d.memory.pinnedMemory then RejectMemory
    else if a.requiresContiguousMemory && !c.capacity.contiguousMemory then RejectContiguity
    else if !c.health.ready then RejectHealth
    else if d.network.requireNic && !(exists b :: b in c.bindings && HasNic(b)) then RejectNetwork
    else if d.network.requireNic && c.capacity.nicBandwidthAvailable < d.network.bandwidth then RejectNetwork
    else if c.capacity.storageAvailable < d.storage.capacity then RejectStorage
    else if d.storage.requireLocal && !c.residency.stateLocal then RejectStorage
    else if c.reservation.protectedResource then RejectReservation
    else if d.requiredTopologyGeneration != 0 && c.locality.topologyGeneration != d.requiredTopologyGeneration then
      RejectTopology
    else if g.ready == Some(false) then RejectDependency
    else if g.allows == Some(false) then RejectPolicy
    else Eligible
  }

  method Evaluate(d: DemandProfile, c: Candidate, g: Gates) returns (status: EligibilityStatus)
    ensures status == Filter(d, c, g)
  {
    var a := d.accelerator;
    if a.minimumCount > 0 && |c.bindings| == 0 { return InsufficientEvidence; }
    if a.minimumCount > 0 && c.capacity.provenance == Unknown { return InsufficientEvidence; }
    if c.health.provenance == Unknown { return InsufficientEvidence; }
    if a.minimumCount > 0 {
      var found := false;
      var i := 0;
      while i < |c.bindings| && !found
        invariant 0 <= i <= |c.bindings|
        invariant found <==> exists k :: 0 <= k < i && Offers(c.bindings[k], a.capability)
      {
        found := Offers(c.bindings[i], a.capability);
        i := i + 1;
      }
      if !found { return RejectCapability; }
      if c.capacity.vramAvailable < RequiredVram(a) { return RejectCapacity; }
    }
    if c.capacity.cpuAvailable < d.cpuRequired { return RejectCapacity; }
    if c.capacity.hostMemoryAvailable < d.memory.hostMemory { return RejectCapacity; }
    if c.capacity.pinnedMemoryAvailable < d.memory.pinnedMemory { return RejectMemory; }
    if a.requiresContiguousMemory && !c.capacity.contiguousMemory { return RejectContiguity; }
    if !c.health.ready { return RejectHealth; }
    if d.network.requireNic {
      var hasNic := false;
      var i := 0;
      while i < |c.bindings| && !hasNic
        invariant 0 <= i <= |c.bindings|
        invariant hasNic <==> exists k :: 0 <= k < i && HasNic(c.bindings[k])
      {
        hasNic := HasNic(c.bindings[i]);
        i := i + 1;
      }
      if !hasNic { return RejectNetwork; }
      if c.capacity.nicBandwidthAvailable < d.network.bandwidth { return RejectNetwork; }
    }
    if c.capacity.storageAvailable < d.storage.capacity { return RejectStorage; }
    if d.storage.requireLocal && !c.residency.stateLocal { return RejectStorage; }
    if c.reservation.protectedResource { return RejectReservation; }
    if d.requiredTopologyGeneration != 0 && c.locality.topologyGeneration != d.requiredTopologyGeneration {
      return RejectTopology;
    }
    if g.ready == Some(false) { return RejectDependency; }
    if g.allows == Some(false) { return RejectPolicy; }
    return Eligible;
  }

  // --- VRAM sufficiency -----------------------------------------------------------------------

  // A candidate that meets every constraint of d with exactly `vram` bytes of VRAM available.
  function Witness(d: DemandProfile, vram: nat): Candidate {
    var b := DeviceBinding(1, 1, 1, 1, 1, 1, 1, 1, 1, 1, 1, 1, 1, 1, [], false, d.accelerator.capability, 0, true, 1);
    Candidate(1, 1, 1, 1, 1, 1, Measured, [b],
              CapacityEvidence(1, vram, 0, vram, d.memory.hostMemory, d.memory.pinnedMemory, d.cpuRequired,
                               d.storage.capacity, d.network.bandwidth, true, Measured),
              HealthEvidence(1, true, 0, [], Measured),
              ReservationEvidence(1, false, 0, [], Measured),
              CongestionEvidence(1, 0, 0, 0, [], Measured),
              LocalityEvidence(d.requiredTopologyGeneration, 0, 0, false, 0, 0, [], Measured),
              CommunicationEvidence(1, 0, 0, 0, true, [], Measured),
              ResidencyEvidence(1, true, true, true, 0, [], Measured), 1, 0)
  }

  /** It passes, and so does any candidate that differs from it only in ids, scores and costs. */
  lemma WitnessPasses(d: DemandProfile, c: Candidate)
    requires var x := Witness(d, RequiredVram(d.accelerator));
      && c.bindings == x.bindings && c.capacity == x.capacity && c.reservation == x.reservation
      && c.locality == x.locality && c.residency == x.residency && c.health.ready && c.health.provenance == Measured
    ensures Filter(d, c, Gates(None, None)) == Eligible
  {
    assert c.bindings[0] in c.bindings && Offers(c.bindings[0], d.accelerator.capability) && HasNic(c.bindings[0]);
  }

  ghost predicate AlwaysFitsVram(d: DemandProfile) {
    forall c: Candidate, g: Gates ::
      Filter(d, c, g) == Eligible && c.capacity.vramAvailable < U64_LIMIT ==>
        c.capacity.vramAvailable >= d.accelerator.vramPerDevice * d.accelerator.minimumCount
  }

  /** For an accepted demand with a positive device count, passing the filter guarantees VRAM for every
      device over the integers, except in the corner where the product reaches 2^64. */
  lemma EligibleFitsVram(d: DemandProfile)
    requires DemandError(d).None? && d.accelerator.minimumCount > 0
    ensures AlwaysFitsVram(d) <==> !WrapsToZero(d.accelerator)
  {
    var a := d.accelerator;
    AcceptedIffWellFormed(d);
    VramProductExact(d);
    if WrapsToZero(a) {
      var c := Witness(d, RequiredVram(a));
      WitnessPasses(d, c);
    }
  }
}
