/** The lifecycle automaton of a listing over every run: what each service may do to it, and what no run ever undoes. */
module Lifecycles {
  import opened Prelude
  import opened Schema
  import opened Normalization
  import opened MergeService
  import opened Engine
  import opened Shapes
  import opened MergeForest
  import opened Absence
  import Admission
  import Disappearance

  /** The moves of one step: merging retires, reversing returns to review, admission decides, absence inactivates. */
  predicate May(step: Step, before: Lifecycle, after: Lifecycle) {
    before == after || match step
    case MergeStep(_, _, _, _) => after == Lifecycle.Merged
    case VerdictStep(_, _, _, _) => after == Lifecycle.Merged
    case ReverseStep(_, _, _) => before == Lifecycle.Merged && after == Lifecycle.ReviewRequired
    case AdmitStep(_, _, _) =>
      && (before == Lifecycle.Candidate || before == Lifecycle.Reappeared)
      && (after == Lifecycle.Active || after == Lifecycle.Excluded)
    case DisappearStep(_, _) =>
      (before == Lifecycle.Active || before == Lifecycle.Candidate) && after == Lifecycle.Inactive
    case _ => false
  }

  /** What may come of a listing over any run. */
  predicate Becomes(before: Lifecycle, after: Lifecycle) {
    || before == after
    || after == Lifecycle.Merged || after == Lifecycle.ReviewRequired
    || (after == Lifecycle.Inactive
        && (before == Lifecycle.Candidate || before == Lifecycle.Reappeared || before == Lifecycle.Active))
    || ((after == Lifecycle.Active || after == Lifecycle.Excluded)
        && (before == Lifecycle.Candidate || before == Lifecycle.Reappeared))
  }

  lemma MergeMoves(inv: Inventory, source: nat, target: nat, now: Time, i: nat)
    requires source < |inv.listings| && target < |inv.listings| && source != target && i < |inv.listings|
    ensures
      var r := DoMerge(inv, source, target, now);
      r.listings[i].lifecycle == if i == source then Lifecycle.Merged else inv.listings[i].lifecycle
  {
    hide Relink, MovedLinks, Emit;
  }

  lemma ReverseMoves(inv: Inventory, m: nat, now: Time, i: nat)
    requires ForeignKeys(inv) && ForestSound(inv) && ActiveMerge(inv.merges, m) && i < |inv.listings|
    ensures inv.merges[m].source < |inv.listings|
    ensures DoReverse(inv, m, now).listings[i].lifecycle != inv.listings[i].lifecycle ==>
              inv.listings[i].lifecycle == Lifecycle.Merged
              && DoReverse(inv, m, now).listings[i].lifecycle == Lifecycle.ReviewRequired
  {
    hide MoveBack;
    assert MergeRefers(inv.merges[m], inv);
    var source := inv.merges[m].source;
    assert IsMerged(inv, source) <==> HasActiveMerge(inv.merges, source);
  }

  /** Every step of every service moves a listing along the automaton. */
  lemma StepMoves(inv: Inventory, step: Step, i: nat)
    requires ForeignKeys(inv) && ForestSound(inv) && i < |inv.listings|
    ensures i < |Apply(inv, step).listings|
    ensures May(step, inv.listings[i].lifecycle, Apply(inv, step).listings[i].lifecycle)
  {
    hide ForeignKeys, ForestSound, Normalized, DoMerge, DoReverse, Disappearance.ProcessSourceRun,
      Admission.EvaluateRows, CloseIssues;
    match step {
      case NormalizeStep(o, via, now) => NormalizeKeepsLifecycle(inv, o, via, now, i);
      case MergeStep(source, target, actor, now) =>
        if CheckMerge(inv.listings, source, target, actor).None? {
          MergeMoves(inv, source, target, now, i);
          MergeKeepsCount(inv, source, target, now);
        }
      case VerdictStep(c, verdict, actor, now) =>
        if ResolveDuplicateCandidate(inv, c, verdict, actor, now).Success? && verdict.duplicate {
          var away, survivor := MergedAway(inv.candidates[c], verdict), Survivor(inv.candidates[c], verdict);
          MergeMoves(inv, away, survivor, now, i);
          MergeKeepsCount(inv, away, survivor, now);
        }
      case ReverseStep(m, actor, now) =>
        if CheckReverse(inv.merges, m, actor).None? {
          ReverseMoves(inv, m, now, i);
          ReverseKeepsCount(inv, m, now);
        }
      case AdmitStep(rows, limit, now) =>
        if Admission.IsSelection(inv.listings, rows, limit) { AdmissionShape(inv, rows, now); }
      case DisappearStep(run, now) => DisappearanceShape(inv, run, now);
      case _ =>
    }
  }

  lemma MergeKeepsCount(inv: Inventory, source: nat, target: nat, now: Time)
    requires source < |inv.listings| && target < |inv.listings| && source != target
    ensures |DoMerge(inv, source, target, now).listings| == |inv.listings|
  {
  }

  lemma ReverseKeepsCount(inv: Inventory, m: nat, now: Time)
    requires m < |inv.merges| && inv.merges[m].source < |inv.listings|
    ensures |DoReverse(inv, m, now).listings| == |inv.listings|
  {
  }

  /**
   * Over every run of all services: nothing leaves INACTIVE, EXCLUDED or REVIEW_REQUIRED except by being merged away
   * (and then returned to review), so no service ever makes such a listing a candidate or ACTIVE again.
   */
  lemma {:induction false} RunMoves(inv: Inventory, steps: seq<Step>, i: nat)
    requires ForeignKeys(inv) && ForestSound(inv) && i < |inv.listings|
    ensures i < |Run(inv, steps).listings|
    ensures Becomes(inv.listings[i].lifecycle, Run(inv, steps).listings[i].lifecycle)
    decreases |steps|
  {
    hide ForeignKeys, ForestSound, Apply;
    if steps != [] {
      ApplyKeepsKeys(inv, steps[0]);
      StepKeepsForest(inv, steps[0]);
      StepMoves(inv, steps[0], i);
      RunMoves(Apply(inv, steps[0]), steps[1..], i);
    }
  }
}
