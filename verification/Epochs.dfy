/** The epoch and the authority along a run: the epoch is the largest that was there or tried, and the authority
    counts how often it moved. */
module Epochs {
  import opened SchedulerModel
  import opened System
  import opened Runs
  import opened Effects

  // The epoch a step tries to set.
  predicate Tries(y: Sys, step: Step, e: nat) {
    match step
    case DoSetEpoch(x) => e == x
    case FenceBumps(c) => c in y.calls && y.calls[c].FenceRead? && e == y.calls[c].seen + 1
    case _ => false
  }

  /** The epoch goes to the larger of the present one and the one tried, and the authority goes up by one when the
      epoch moves. */
  ghost predicate EpochStepped(y: Sys, step: Step, z: Sys) {
    && y.sched.epoch <= z.sched.epoch
    && (forall e: nat :: Tries(y, step, e) ==> e <= z.sched.epoch)
    && (z.sched.epoch != y.sched.epoch ==> Tries(y, step, z.sched.epoch))
    && z.sched.authority == y.sched.authority + if z.sched.epoch == y.sched.epoch then 0 else 1
  }

  lemma TriedEpoch(s: Sched, e: nat)
    ensures var t := if SetEpoch(s, e).Ok? then SetEpoch(s, e).value else s;
      && t.epoch == (if e > s.epoch then e else s.epoch)
      && t.authority == s.authority + if e > s.epoch then 1 else 0
  {
    EpochAnswers(s, e);
    if e > s.epoch { EpochMoves(s, e, 0); }
  }

  lemma EpochStep(y: Sys, step: Step)
    requires Enabled(y, step) && !step.DoRestore?
    ensures EpochStepped(y, step, Apply(y, step))
  {
    if step.DoSetEpoch? {
      TriedEpoch(y.sched, step.epoch);
    } else if step.FenceBumps? {
      TriedEpoch(y.sched, y.calls[step.call].seen + 1);
    } else {
      StepFrame(y, step);
    }
  }

  lemma EpochNext(ys: seq<Sys>, steps: seq<Step>, k: nat)
    requires IsRun(ys, steps) && k < |steps| && !steps[k].DoRestore?
    ensures EpochStepped(ys[k], steps[k], ys[k + 1])
  {
    assert StepAt(ys, steps, k);
    EpochStep(ys[k], steps[k]);
  }

  /** How often the epoch moved between two points. */
  ghost function Moves(ys: seq<Sys>, i: nat, j: nat): nat
    requires i <= j < |ys|
  {
    if i == j then 0 else Moves(ys, i, j - 1) + if ys[j].sched.epoch == ys[j - 1].sched.epoch then 0 else 1
  }

  /** The authority counts the moves of the epoch. */
  lemma {:induction false} AuthorityCounts(ys: seq<Sys>, steps: seq<Step>, i: nat, j: nat)
    requires IsRun(ys, steps) && i <= j < |ys| && SameIncarnation(steps, i, j)
    ensures ys[j].sched.authority == ys[i].sched.authority + Moves(ys, i, j)
  {
    if i < j {
      AuthorityCounts(ys, steps, i, j - 1);
      EpochNext(ys, steps, j - 1);
    }
  }

  ghost predicate TriedBetween(ys: seq<Sys>, steps: seq<Step>, i: nat, j: nat, e: nat)
    requires IsRun(ys, steps) && j <= |steps|
  {
    exists k :: i <= k < j && Tries(ys[k], steps[k], e)
  }

  /** The epoch is the largest of the one at the start and all that were tried since. */
  lemma {:induction false} EpochIsLargest(ys: seq<Sys>, steps: seq<Step>, i: nat, j: nat)
    requires IsRun(ys, steps) && i <= j < |ys| && SameIncarnation(steps, i, j)
    ensures ys[i].sched.epoch <= ys[j].sched.epoch
    ensures forall e: nat :: TriedBetween(ys, steps, i, j, e) ==> e <= ys[j].sched.epoch
    ensures ys[j].sched.epoch == ys[i].sched.epoch || TriedBetween(ys, steps, i, j, ys[j].sched.epoch)
  {
    if i < j {
      var e := ys[j].sched.epoch;
      EpochIsLargest(ys, steps, i, j - 1);
      EpochNext(ys, steps, j - 1);
      forall x: nat | TriedBetween(ys, steps, i, j, x) ensures x <= e {
        if !TriedBetween(ys, steps, i, j - 1, x) { assert Tries(ys[j - 1], steps[j - 1], x); }
      }
      if e == ys[j - 1].sched.epoch {
        if TriedBetween(ys, steps, i, j - 1, e) { TriedLater(ys, steps, i, j - 1, e); }
      } else {
        assert Tries(ys[j - 1], steps[j - 1], e);
      }
    }
  }

  lemma TriedLater(ys: seq<Sys>, steps: seq<Step>, i: nat, j: nat, e: nat)
    requires IsRun(ys, steps) && j < |steps| && TriedBetween(ys, steps, i, j, e)
    ensures TriedBetween(ys, steps, i, j + 1, e)
  {}
}
