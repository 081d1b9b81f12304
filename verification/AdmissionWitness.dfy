/** A reachable run in which an immediate second admission pass still decides something. */
module AdmissionWitness {
  import opened Schema
  import opened Engine
  import opened Admission
  import opened AdmissionSafety
  import opened Sightings
  import Shapes

  /** Two out-of-scope listings and a limit of one: each pass excludes one of them. */
  lemma SecondPassDecides() returns (steps: seq<Step>)
    ensures
      var inv := FromEmpty(steps);
      var once := Apply(inv, AdmitStep([0], 1, 0));
      var twice := Apply(FromEmpty(steps + [AdmitStep([0], 1, 0)]), AdmitStep([1], 1, 0));
      && IsSelection(inv.listings, [0], 1) && FromEmpty(steps + [AdmitStep([0], 1, 0)]) == once
      && |inv.listings| == |once.listings| == |twice.listings| == 2
      && once.listings[0].lifecycle == Lifecycle.Excluded && once.listings[1].lifecycle == Lifecycle.Candidate
      && IsSelection(once.listings, [1], 1) && twice.listings[1].lifecycle == Lifecycle.Excluded
      && !Quiet(once, 1, 0)
  {
    hide FromEmpty, ForeignKeys, EvaluateRows, Quiet;
    steps := ReachTwo(1, 1, LayoutClass.OutOfScope);
    var inv := FromEmpty(steps);
    Extend(steps, AdmitStep([0], 1, 0));
    assert IsSelection(inv.listings, [0], 1);
    Excludes(inv, 0);
    var once := EvaluateRows(inv, [0], 0);
    assert IsSelection(once.listings, [1], 1);
    Excludes(once, 1);
    NotQuiet(once);
  }

  lemma Excludes(inv: Inventory, i: nat)
    requires ForeignKeys(inv) && |inv.listings| == 2 && i < 2 && inv.listings[i].layout == LayoutClass.OutOfScope
    ensures
      var r := EvaluateRows(inv, [i], 0);
      && |r.listings| == 2 && r.listings[i].lifecycle == Lifecycle.Excluded
      && r.listings[1 - i] == inv.listings[1 - i] && ForeignKeys(r)
      && r.listings[i].layout == inv.listings[i].layout
  {
    hide ForeignKeys, EvaluateRows;
    BatchOutcome(inv, [i], 0);
    Shapes.AdmissionShape(inv, [i], 0);
    assert i in [i] && 1 - i !in [i];
    OutOfScopeIsExcluded(inv, i);
  }

  lemma OutOfScopeIsExcluded(inv: Inventory, i: nat)
    requires ForeignKeys(inv) && i < |inv.listings| && inv.listings[i].layout == LayoutClass.OutOfScope
    ensures DecisionFor(inv, i) == Exclude
  {
  }

  lemma NotQuiet(inv: Inventory)
    requires ForeignKeys(inv) && |inv.listings| == 2 && IsPending(inv.listings[1])
    requires inv.listings[1].layout == LayoutClass.OutOfScope
    ensures !Quiet(inv, 1, 0)
  {
    hide ForeignKeys, Quiet, DecisionFor;
    QuietIff(inv, 1, 0);
    OutOfScopeIsExcluded(inv, 1);
  }
}
