/** Reversing merges newest first, with any other work in between: every link is back where it was. */
module NestedUndo {
  import opened Prelude
  import opened Schema
  import opened MergeService
  import opened Engine
  import opened MergeForest

  function Owners(links: seq<Link>): seq<nat> {
    seq(|links|, k requires 0 <= k < |links| => links[k].listing)
  }

  /** The step neither merges nor reverses: another service, a verdict of distinct, or a request that is refused. */
  predicate MovesNothing(inv: Inventory, step: Step) {
    match step
    case MergeStep(source, target, actor, _) => CheckMerge(inv.listings, source, target, actor).Some?
    case ReverseStep(m, actor, _) => CheckReverse(inv.merges, m, actor).Some?
    case VerdictStep(c, verdict, actor, now) =>
      !verdict.duplicate || ResolveDuplicateCandidate(inv, c, verdict, actor, now).Failure?
    case _ => true
  }

  /**
   * A program whose merges are reversed newest first: steps that move nothing anywhere, and each merge or merging
   * verdict enclosing a program of the same kind before its own reversal.
   */
  datatype Plan =
    | Done
    | Then(step: Step, rest: Plan)
    | Nested(opening: Step, inner: Plan, undoneBy: Actor, undoneAt: Time, rest: Plan)

  function UndoOf(inv: Inventory, plan: Plan): Step
    requires plan.Nested?
  {
    ReverseStep(|inv.merges|, plan.undoneBy, plan.undoneAt)
  }

  /** The state when the innermost work of a merge is done, before its reversal. */
  ghost function Within(inv: Inventory, plan: Plan): (r: Inventory)
    requires ForeignKeys(inv) && plan.Nested?
    ensures ForeignKeys(r)
    decreases plan, 0
  {
    ApplyKeepsKeys(inv, plan.opening);
    RunPlan(Apply(inv, plan.opening), plan.inner)
  }

  ghost function Undone(inv: Inventory, plan: Plan): (r: Inventory)
    requires ForeignKeys(inv) && plan.Nested?
    ensures ForeignKeys(r)
    decreases plan, 1
  {
    ApplyKeepsKeys(Within(inv, plan), UndoOf(inv, plan));
    Apply(Within(inv, plan), UndoOf(inv, plan))
  }

  /** The state after the plan; an opening that moves nothing skips its inner plan and has nothing to reverse. */
  ghost function RunPlan(inv: Inventory, plan: Plan): (r: Inventory)
    requires ForeignKeys(inv)
    ensures ForeignKeys(r)
    decreases plan, 2
  {
    match plan
    case Done => inv
    case Then(step, rest) =>
      ApplyKeepsKeys(inv, step);
      RunPlan(Apply(inv, step), rest)
    case Nested(opening, inner, _, _, rest) =>
      ApplyKeepsKeys(inv, opening);
      if MovesNothing(inv, opening) then RunPlan(Apply(inv, opening), rest)
      else RunPlan(Undone(inv, plan), rest)
  }

  ghost predicate Balanced(inv: Inventory, plan: Plan)
    requires ForeignKeys(inv)
    decreases plan
  {
    match plan
    case Done => true
    case Then(step, rest) =>
      ApplyKeepsKeys(inv, step);
      MovesNothing(inv, step) && Balanced(Apply(inv, step), rest)
    case Nested(opening, inner, undoneBy, _, rest) =>
      ApplyKeepsKeys(inv, opening);
      && (opening.MergeStep? || opening.VerdictStep?) && undoneBy.human
      && (if MovesNothing(inv, opening) then Balanced(Apply(inv, opening), rest)
          else Balanced(Apply(inv, opening), inner) && Balanced(Undone(inv, plan), rest))
  }

  /** The owner each link created during the plan had at its creation, in creation order. */
  ghost function CreatedOn(inv: Inventory, plan: Plan): seq<nat>
    requires ForeignKeys(inv)
    decreases plan
  {
    match plan
    case Done => []
    case Then(step, rest) =>
      ApplyKeepsKeys(inv, step);
      var owners := Owners(Apply(inv, step).links);
      (if |inv.links| <= |owners| then owners[|inv.links|..] else []) + CreatedOn(Apply(inv, step), rest)
    case Nested(opening, inner, _, _, rest) =>
      ApplyKeepsKeys(inv, opening);
      if MovesNothing(inv, opening) then CreatedOn(Apply(inv, opening), rest)
      else CreatedOn(Apply(inv, opening), inner) + CreatedOn(Undone(inv, plan), rest)
  }

  /** Old links have their owners back, new ones are where they were created, and every new merge is reversed. */
  ghost predicate Restored(inv: Inventory, r: Inventory, created: seq<nat>) {
    && Owners(r.links) == Owners(inv.links) + created
    && |inv.merges| <= |r.merges|
    && (forall m :: 0 <= m < |inv.merges| ==> r.merges[m] == inv.merges[m])
    && (forall m :: |inv.merges| <= m < |r.merges| ==> r.merges[m].reversedAt.Some?)
  }

  lemma RestoredThen(x: Inventory, y: Inventory, z: Inventory, first: seq<nat>, second: seq<nat>)
    requires Restored(x, y, first) && Restored(y, z, second)
    ensures Restored(x, z, first + second)
  {
    assert Owners(x.links) + first + second == Owners(x.links) + (first + second);
  }

  lemma StepRestores(inv: Inventory, step: Step)
    requires ForeignKeys(inv) && MovesNothing(inv, step)
    ensures |inv.links| <= |Apply(inv, step).links|
    ensures Restored(inv, Apply(inv, step), Owners(Apply(inv, step).links)[|inv.links|..])
    ensures step.MergeStep? || step.VerdictStep? ==> Restored(inv, Apply(inv, step), [])
  {
    hide ForeignKeys, Apply;
    if MovesLinks(step) {
      RefusedStep(inv, step);
    } else {
      OtherStepKeepsOwners(inv, step);
    }
    assert Owners(Apply(inv, step).links)[..|inv.links|] == Owners(inv.links);
  }

  /** A refused request and a verdict of distinct leave links and merges as they are. */
  lemma RefusedStep(inv: Inventory, step: Step)
    requires ForeignKeys(inv) && MovesNothing(inv, step) && MovesLinks(step)
    ensures Apply(inv, step).links == inv.links && Apply(inv, step).merges == inv.merges
  {
    hide ForeignKeys;
  }

  /** The pair an opening merges. */
  function MergedPair(inv: Inventory, opening: Step): (nat, nat)
    requires (opening.MergeStep? || opening.VerdictStep?) && !MovesNothing(inv, opening)
  {
    match opening
    case MergeStep(source, target, _, _) => (source, target)
    case VerdictStep(c, verdict, _, _) =>
      (MergedAway(inv.candidates[c], verdict), Survivor(inv.candidates[c], verdict))
  }

  /** An opening merges its pair, whatever else a verdict settles. */
  lemma OpeningMerges(inv: Inventory, opening: Step)
    requires ForeignKeys(inv) && (opening.MergeStep? || opening.VerdictStep?) && !MovesNothing(inv, opening)
    ensures
      var (source, target) := MergedPair(inv, opening);
      && source < |inv.listings| && target < |inv.listings| && source != target
      && Apply(inv, opening).links == DoMerge(inv, source, target, opening.now).links
      && Apply(inv, opening).merges == DoMerge(inv, source, target, opening.now).merges
  {
    hide ForeignKeys, DoMerge;
  }

  /** Reversing the merge that enclosed restoring work gives every link back. */
  lemma UndoRestores(
      inv: Inventory, source: nat, target: nat, now: Time, within: Inventory, created: seq<nat>, undoneAt: Time)
    requires ForeignKeys(inv) && ForeignKeys(within)
    requires source < |inv.listings| && target < |inv.listings| && source != target
    requires Restored(DoMerge(inv, source, target, now), within, created)
    ensures |inv.merges| < |within.merges| && within.merges[|inv.merges|].reversedAt.None?
    ensures within.merges[|inv.merges|].source < |within.listings|
    ensures Restored(inv, DoReverse(within, |inv.merges|, undoneAt), created)
  {
    hide ForeignKeys, DoReverse, DoMerge;
    var m := |inv.merges|;
    var merged := DoMerge(inv, source, target, now);
    MergeRemembers(inv, source, target, now);
    assert within.merges[m] == merged.merges[m];
    ReverseKeepsKeys(within, m, undoneAt);
    ReverseShape(within, m, undoneAt);
    var after := Owners(DoReverse(within, m, undoneAt).links);
    forall k | 0 <= k < |after| ensures after[k] == (Owners(inv.links) + created)[k] {
      assert Owners(within.links)[k] == (Owners(merged.links) + created)[k];
      ReversedOwner(within, m, undoneAt, k);
      if k < |inv.links| {
        MergedOwner(inv, source, target, now, k);
      }
    }
  }

  lemma NestingRestores(inv: Inventory, plan: Plan, created: seq<nat>)
    requires ForeignKeys(inv) && plan.Nested? && plan.undoneBy.human
    requires (plan.opening.MergeStep? || plan.opening.VerdictStep?) && !MovesNothing(inv, plan.opening)
    requires Restored(Apply(inv, plan.opening), Within(inv, plan), created)
    ensures Restored(inv, Undone(inv, plan), created)
  {
    hide ForeignKeys, DoReverse, DoMerge, MovesNothing, Within;
    OpeningMerges(inv, plan.opening);
    var (source, target) := MergedPair(inv, plan.opening);
    UndoRestores(inv, source, target, plan.opening.now, Within(inv, plan), created, plan.undoneAt);
  }

  lemma MergeRemembers(inv: Inventory, source: nat, target: nat, now: Time)
    requires source < |inv.listings| && target < |inv.listings| && source != target
    ensures
      var r := DoMerge(inv, source, target, now);
      && r.merges == inv.merges + [Merge(source, target, MovedLinks(inv.links, source), now, None)]
      && |r.links| == |inv.links| && |r.listings| == |inv.listings|
  {
    hide MovedLinks, Emit;
  }

  lemma MergedOwner(inv: Inventory, source: nat, target: nat, now: Time, k: nat)
    requires source < |inv.listings| && target < |inv.listings| && source != target && k < |inv.links|
    ensures
      var r := DoMerge(inv, source, target, now);
      && |r.links| == |inv.links|
      && r.links[k].listing == (if inv.links[k].listing == source then target else inv.links[k].listing)
      && (k in MovedLinks(inv.links, source) <==> inv.links[k].listing == source)
  {
    hide Emit;
  }

  lemma ReverseShape(inv: Inventory, m: nat, at: Time)
    requires m < |inv.merges| && inv.merges[m].source < |inv.listings|
    ensures
      var r := DoReverse(inv, m, at);
      && |r.links| == |inv.links| && |r.listings| == |inv.listings|
      && r.merges == inv.merges[m := inv.merges[m].(reversedAt := Some(at))]
  {
    hide MoveBack;
    assert |MoveBack(inv.links, inv.merges[m].moved, inv.merges[m].source)| == |inv.links| by {
      MoveBackKeepsCount(inv.links, inv.merges[m].moved, inv.merges[m].source);
    }
  }

  lemma MoveBackKeepsCount(links: seq<Link>, moved: seq<nat>, source: nat)
    ensures |MoveBack(links, moved, source)| == |links|
  {
  }

  lemma ReversedOwner(inv: Inventory, m: nat, at: Time, k: nat)
    requires m < |inv.merges| && inv.merges[m].source < |inv.listings| && k < |inv.links|
    ensures
      var r := DoReverse(inv, m, at);
      && |r.links| == |inv.links|
      && r.links[k].listing == if k in inv.merges[m].moved then inv.merges[m].source else inv.links[k].listing
  {
  }

  /** LIFO undo: owners come back exactly, and links created inside stay where they were created. */
  lemma {:induction false} NestedUndoRestoresOwners(inv: Inventory, plan: Plan)
    requires ForeignKeys(inv) && Balanced(inv, plan)
    ensures Restored(inv, RunPlan(inv, plan), CreatedOn(inv, plan))
    decreases plan
  {
    hide ForeignKeys, Apply, Restored, MovesNothing, Undone;
    match plan {
      case Done => NothingRestores(inv);
      case Then(step, rest) =>
        ApplyKeepsKeys(inv, step);
        StepRestores(inv, step);
        var next := Apply(inv, step);
        NestedUndoRestoresOwners(next, rest);
        RestoredThen(inv, next, RunPlan(next, rest), Owners(next.links)[|inv.links|..], CreatedOn(next, rest));
      case Nested(opening, inner, _, _, rest) =>
        ApplyKeepsKeys(inv, opening);
        var next := Apply(inv, opening);
        if MovesNothing(inv, opening) {
          StepRestores(inv, opening);
          NestedUndoRestoresOwners(next, rest);
          RestoredThen(inv, next, RunPlan(next, rest), [], CreatedOn(next, rest));
          assert [] + CreatedOn(next, rest) == CreatedOn(next, rest);
        } else {
          NestedUndoRestoresOwners(next, inner);
          var created := CreatedOn(next, inner);
          NestingRestores(inv, plan, created);
          var undone := Undone(inv, plan);
          NestedUndoRestoresOwners(undone, rest);
          RestoredThen(inv, undone, RunPlan(undone, rest), created, CreatedOn(undone, rest));
        }
    }
  }

  lemma NothingRestores(inv: Inventory)
    ensures Restored(inv, inv, [])
  {
  }
}
