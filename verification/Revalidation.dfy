/** revalidate_plan: which of the twelve generations a plan depends on have moved. */
module Revalidation {
  import opened Types

  datatype Dimension =
    | Topology | Capacity | Reservation | Congestion | Capability | Health | Residency | CommunicationPlan
    | Policy | Resource | Dependency | Coordinator

  function Reading(g: GenerationFingerprint, d: Dimension): nat {
    match d
    case Topology => g.topology case Capacity => g.capacity case Reservation => g.reservation
    case Congestion => g.congestion case Capability => g.capability case Health => g.health
    case Residency => g.residency case CommunicationPlan => g.communicationPlan case Policy => g.policy
    case Resource => g.resource case Dependency => g.dependency case Coordinator => g.coordinatorEpoch
  }

  // Where a dimension stands in the report.
  function Place(d: Dimension): nat {
    match d
    case Topology => 0 case Capacity => 1 case Reservation => 2 case Congestion => 3 case Capability => 4
    case Health => 5 case Residency => 6 case CommunicationPlan => 7 case Policy => 8 case Resource => 9
    case Dependency => 10 case Coordinator => 11
  }

  datatype RevalidationResult = RevalidationResult(current: bool, changes: seq<Dimension>, resultingState: LifecycleState)

  // The dimensions in places below n that differ, in order.
  function Moved(n: nat, a: GenerationFingerprint, b: GenerationFingerprint): seq<Dimension>
    decreases n, a
  {
    if n == 0 then [] else Moved(n - 1, a, b) + MovedAt(n - 1, a, b)
  }

  function MovedAt(n: nat, a: GenerationFingerprint, b: GenerationFingerprint): seq<Dimension> {
    if n < 12 && Reading(a, At(n)) != Reading(b, At(n)) then [At(n)] else []
  }

  function At(n: nat): (d: Dimension)
    requires n < 12
    ensures Place(d) == n
  {
    if n < 6 then
      if n == 0 then Topology else if n == 1 then Capacity else if n == 2 then Reservation
      else if n == 3 then Congestion else if n == 4 then Capability else Health
    else
      if n == 6 then Residency else if n == 7 then CommunicationPlan else if n == 8 then Policy
      else if n == 9 then Resource else if n == 10 then Dependency else Coordinator
  }

  lemma PlaceNames(d: Dimension, e: Dimension)
    ensures Place(d) == Place(e) ==> d == e
  {}

  // Compare the next dimension.
  method Note(changes: seq<Dimension>, d: Dimension, a: GenerationFingerprint, b: GenerationFingerprint)
    returns (more: seq<Dimension>)
    requires changes == Moved(Place(d), a, b)
    ensures more == Moved(Place(d) + 1, a, b)
  {
    PlaceNames(d, At(Place(d)));
    more := if Reading(a, d) != Reading(b, d) then changes + [d] else changes;
  }

  method NoteEvidence(g: GenerationFingerprint, current: GenerationFingerprint) returns (changes: seq<Dimension>)
    ensures changes == Moved(6, g, current)
  {
    changes := [];
    changes := Note(changes, Topology, g, current);
    changes := Note(changes, Capacity, g, current);
    changes := Note(changes, Reservation, g, current);
    changes := Note(changes, Congestion, g, current);
    changes := Note(changes, Capability, g, current);
    changes := Note(changes, Health, g, current);
  }

  method NoteRest(before: seq<Dimension>, g: GenerationFingerprint, current: GenerationFingerprint) returns (changes: seq<Dimension>)
    requires before == Moved(6, g, current)
    ensures changes == Moved(12, g, current)
  {
    changes := before;
    changes := Note(changes, Residency, g, current);
    changes := Note(changes, CommunicationPlan, g, current);
    changes := Note(changes, Policy, g, current);
    changes := Note(changes, Resource, g, current);
    changes := Note(changes, Dependency, g, current);
    changes := Note(changes, Coordinator, g, current);
  }

  /** The report names exactly the generations that moved, in a fixed order, and is empty exactly when the plan
      is still current; only then does the plan keep its state. */
  method RevalidatePlan(p: PlacementPlan, current: GenerationFingerprint) returns (r: RevalidationResult)
    ensures r.current <==> p.generations == current
    ensures r.current <==> r.changes == []
    ensures r.changes == Moved(12, p.generations, current)
    ensures forall d :: d in r.changes <==> Reading(p.generations, d) != Reading(current, d)
    ensures r.resultingState == if r.current then p.state else RevalidationRequired
  {
    var g := p.generations;
    var changes := NoteEvidence(g, current);
    changes := NoteRest(changes, g, current);
    ReportIsExact(g, current);
    r := RevalidationResult(g == current, changes, if g == current then p.state else RevalidationRequired);
  }

  lemma {:induction false} MovedExactly(n: nat, a: GenerationFingerprint, b: GenerationFingerprint, d: Dimension)
    requires n <= 12
    ensures d in Moved(n, a, b) <==> Place(d) < n && Reading(a, d) != Reading(b, d)
  {
    if n > 0 {
      MovedExactly(n - 1, a, b, d);
      PlaceNames(d, At(n - 1));
    }
  }

  /** The twelve comparisons are the whole of the fingerprint's equality. */
  lemma ReportIsExact(a: GenerationFingerprint, b: GenerationFingerprint)
    ensures forall d :: d in Moved(12, a, b) <==> Reading(a, d) != Reading(b, d)
    ensures Moved(12, a, b) == [] <==> a == b
  {
    forall d ensures d in Moved(12, a, b) <==> Reading(a, d) != Reading(b, d) { MovedExactly(12, a, b, d); }
    var m := Moved(12, a, b);
    if m == [] {
      assert forall d :: d !in m;
      SameReadings(a, b);
    } else {
      assert m[0] in m;
    }
  }

  lemma SameReadings(a: GenerationFingerprint, b: GenerationFingerprint)
    requires forall d :: Reading(a, d) == Reading(b, d)
    ensures a == b
  {
    assert Reading(a, Topology) == Reading(b, Topology) && Reading(a, Capacity) == Reading(b, Capacity);
    assert Reading(a, Reservation) == Reading(b, Reservation) && Reading(a, Congestion) == Reading(b, Congestion);
    assert Reading(a, Capability) == Reading(b, Capability) && Reading(a, Health) == Reading(b, Health);
    assert Reading(a, Residency) == Reading(b, Residency) && Reading(a, CommunicationPlan) == Reading(b, CommunicationPlan);
    assert Reading(a, Policy) == Reading(b, Policy) && Reading(a, Resource) == Reading(b, Resource);
    assert Reading(a, Dependency) == Reading(b, Dependency) && Reading(a, Coordinator) == Reading(b, Coordinator);
  }
}
