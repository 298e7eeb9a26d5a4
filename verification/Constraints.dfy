/** What the hard filter decides, stated on the fields of a demand and a candidate: what an eligible candidate
    offers, and what each answer says of one that is not. */
module Constraints {
  import opened Types
  import opened Demand
  import opened Eligibility

  // --- what is asked for, concern by concern --------------------------------------------------

  /** Demanded compute has devices and known capacity evidence, and health evidence is known. */
  predicate Evidenced(d: DemandProfile, c: Candidate) {
    && c.health.provenance != Unknown
    && (d.accelerator.minimumCount > 0 ==> |c.bindings| > 0 && c.capacity.provenance != Unknown)
  }

  /** Demanded compute has a device of the asked capability that is current. */
  ghost predicate Capable(d: DemandProfile, c: Candidate) {
    d.accelerator.minimumCount > 0 ==>
      exists i :: 0 <= i < |c.bindings| && c.bindings[i].capability == d.accelerator.capability && c.bindings[i].capabilityCurrent
  }

  /** The aggregate VRAM, or that of all devices together capped at 2^64 - 1. */
  predicate HoldsVram(a: AcceleratorRequirement, avail: nat) {
    if a.aggregateVram > 0 then a.aggregateVram <= avail
    else a.vramPerDevice * a.minimumCount <= avail || avail >= U64_LIMIT - 1
  }

  predicate Roomy(d: DemandProfile, c: CapacityEvidence) {
    && (d.accelerator.minimumCount > 0 ==> HoldsVram(d.accelerator, c.vramAvailable))
    && d.cpuRequired <= c.cpuAvailable && d.memory.hostMemory <= c.hostMemoryAvailable
  }

  predicate Pinnable(d: DemandProfile, c: CapacityEvidence) {
    d.memory.pinnedMemory <= c.pinnedMemoryAvailable
  }

  predicate Contiguous(d: DemandProfile, c: CapacityEvidence) {
    d.accelerator.requiresContiguousMemory ==> c.contiguousMemory
  }

  /** A demanded NIC is bound and has the bandwidth. */
  ghost predicate Connected(d: DemandProfile, c: Candidate) {
    d.network.requireNic ==>
      && (exists i :: 0 <= i < |c.bindings| && c.bindings[i].nicId > 0 && c.bindings[i].nicGeneration > 0)
      && d.network.bandwidth <= c.capacity.nicBandwidthAvailable
  }

  predicate HoldsData(d: DemandProfile, c: Candidate) {
    d.storage.capacity <= c.capacity.storageAvailable && (d.storage.requireLocal ==> c.residency.stateLocal)
  }

  predicate OnTopology(d: DemandProfile, c: Candidate) {
    d.requiredTopologyGeneration > 0 ==> c.locality.topologyGeneration == d.requiredTopologyGeneration
  }

  /** Everything a demand asks of a candidate. */
  ghost predicate Meets(d: DemandProfile, c: Candidate) {
    && Evidenced(d, c) && Capable(d, c) && Roomy(d, c.capacity) && Pinnable(d, c.capacity) && Contiguous(d, c.capacity)
    && c.health.ready && Connected(d, c) && HoldsData(d, c) && !c.reservation.protectedResource && OnTopology(d, c)
  }

  // --- eligibility ----------------------------------------------------------------------------

  lemma OffersIff(c: Candidate, capability: AcceleratorClass)
    ensures (exists b :: b in c.bindings && Offers(b, capability)) <==>
      exists i :: 0 <= i < |c.bindings| && c.bindings[i].capability == capability && c.bindings[i].capabilityCurrent
  {
    if b :| b in c.bindings && Offers(b, capability) {
      var i :| 0 <= i < |c.bindings| && c.bindings[i] == b;
      assert c.bindings[i].capability == capability;
    }
    if i :| 0 <= i < |c.bindings| && c.bindings[i].capability == capability && c.bindings[i].capabilityCurrent {
      assert c.bindings[i] in c.bindings && Offers(c.bindings[i], capability);
    }
  }

  lemma HasNicIff(c: Candidate)
    ensures (exists b :: b in c.bindings && HasNic(b)) <==>
      exists i :: 0 <= i < |c.bindings| && c.bindings[i].nicId > 0 && c.bindings[i].nicGeneration > 0
  {
    if b :| b in c.bindings && HasNic(b) {
      var i :| 0 <= i < |c.bindings| && c.bindings[i] == b;
      assert c.bindings[i].nicId > 0;
    }
    if i :| 0 <= i < |c.bindings| && c.bindings[i].nicId > 0 && c.bindings[i].nicGeneration > 0 {
      assert c.bindings[i] in c.bindings && HasNic(c.bindings[i]);
    }
  }

  lemma EnoughVram(a: AcceleratorRequirement, avail: nat)
    ensures avail >= RequiredVram(a) <==> HoldsVram(a, avail)
  {
    SaturatingMulIsMin(a.vramPerDevice, a.minimumCount);
  }

  /** A candidate passes the filter if and only if it meets everything the demand asks for and no gate refuses. */
  lemma EligibleIff(d: DemandProfile, c: Candidate, g: Gates)
    ensures Filter(d, c, g) == Eligible <==> Meets(d, c) && g.ready != Some(false) && g.allows != Some(false)
  {
    OffersIff(c, d.accelerator.capability);
    HasNicIff(c);
    EnoughVram(d.accelerator, c.capacity.vramAvailable);
  }

  // --- the answer tells the first concern that is not met --------------------------------------

  /** Insufficient evidence comes before all else, then the capability, then capacity. */
  lemma EarlyAnswersIff(d: DemandProfile, c: Candidate, g: Gates)
    ensures Filter(d, c, g) == InsufficientEvidence <==> !Evidenced(d, c)
    ensures Filter(d, c, g) == RejectCapability <==> Evidenced(d, c) && !Capable(d, c)
    ensures Filter(d, c, g) == RejectCapacity <==> Evidenced(d, c) && Capable(d, c) && !Roomy(d, c.capacity)
  {
    OffersIff(c, d.accelerator.capability);
    EnoughVram(d.accelerator, c.capacity.vramAvailable);
  }

  ghost predicate PlacesWork(d: DemandProfile, c: Candidate) {
    Evidenced(d, c) && Capable(d, c) && Roomy(d, c.capacity)
  }

  /** Then pinned memory, contiguity, and health. */
  lemma MiddleAnswersIff(d: DemandProfile, c: Candidate, g: Gates)
    ensures Filter(d, c, g) == RejectMemory <==> PlacesWork(d, c) && !Pinnable(d, c.capacity)
    ensures Filter(d, c, g) == RejectContiguity <==> PlacesWork(d, c) && Pinnable(d, c.capacity) && !Contiguous(d, c.capacity)
    ensures Filter(d, c, g) == RejectHealth <==>
      PlacesWork(d, c) && Pinnable(d, c.capacity) && Contiguous(d, c.capacity) && !c.health.ready
  {
    OffersIff(c, d.accelerator.capability);
    EnoughVram(d.accelerator, c.capacity.vramAvailable);
  }

  ghost predicate RunsWork(d: DemandProfile, c: Candidate) {
    PlacesWork(d, c) && Pinnable(d, c.capacity) && Contiguous(d, c.capacity) && c.health.ready
  }

  /** Then network, storage, reservation and topology. */
  lemma LateAnswersIff(d: DemandProfile, c: Candidate, g: Gates)
    ensures Filter(d, c, g) == RejectNetwork <==> RunsWork(d, c) && !Connected(d, c)
    ensures Filter(d, c, g) == RejectStorage <==> RunsWork(d, c) && Connected(d, c) && !HoldsData(d, c)
    ensures Filter(d, c, g) == RejectReservation <==>
      RunsWork(d, c) && Connected(d, c) && HoldsData(d, c) && c.reservation.protectedResource
    ensures Filter(d, c, g) == RejectTopology <==>
      RunsWork(d, c) && Connected(d, c) && HoldsData(d, c) && !c.reservation.protectedResource && !OnTopology(d, c)
  {
    OffersIff(c, d.accelerator.capability);
    HasNicIff(c);
    EnoughVram(d.accelerator, c.capacity.vramAvailable);
  }

  /** And the gates last, the dependencies before the policy. */
  lemma GateAnswersIff(d: DemandProfile, c: Candidate, g: Gates)
    ensures Filter(d, c, g) == RejectDependency <==> Meets(d, c) && g.ready == Some(false)
    ensures Filter(d, c, g) == RejectPolicy <==> Meets(d, c) && g.ready != Some(false) && g.allows == Some(false)
  {
    OffersIff(c, d.accelerator.capability);
    HasNicIff(c);
    EnoughVram(d.accelerator, c.capacity.vramAvailable);
  }
}
