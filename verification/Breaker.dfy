/** The circuit breaker over whole runs: how fast the ACTIVE inventory can shrink. */
module Breaker {
  import opened Prelude
  import opened Schema
  import opened MergeService
  import opened Engine
  import opened Shapes
  import opened MergeForest
  import opened Absence
  import Disappearance
  import Admission

  predicate IsActive(l: Listing) {
    l.lifecycle == Lifecycle.Active
  }

  /** How many listings are ACTIVE. */
  function Count(inv: Inventory): nat {
    Disappearance.ActiveCount(inv.listings)
  }

  // ---------------------------------------------------------------- counting

  lemma {:induction false} CountAgrees<T>(rows: seq<T>, p: T -> bool, q: T -> bool)
    requires forall row :: p(row) == q(row)
    ensures CountIf(rows, p) == CountIf(rows, q)
  {
    if rows != [] {
      CountAgrees(rows[..|rows| - 1], p, q);
    }
  }

  lemma CountIsActive(inv: Inventory)
    ensures Count(inv) == CountIf(inv.listings, IsActive)
  {
    CountAgrees(inv.listings, (l: Listing) => l.lifecycle == Lifecycle.Active, IsActive);
  }

  lemma {:induction false} CountGrows<T>(rows: seq<T>, more: seq<T>, p: T -> bool)
    requires |rows| <= |more| && forall i :: 0 <= i < |rows| ==> p(rows[i]) ==> p(more[i])
    ensures CountIf(rows, p) <= CountIf(more, p)
  {
    if |rows| < |more| {
      CountGrows(rows, more[..|more| - 1], p);
    } else if rows != [] {
      CountGrows(rows[..|rows| - 1], more[..|more| - 1], p);
    }
  }

  lemma {:induction false} InactivationCost(inv: Inventory, ids: seq<nat>, now: Time)
    requires forall a :: 0 <= a < |ids| ==> ids[a] < |inv.listings|
    ensures CountIf(Disappearance.InactivateAll(inv, ids, now).listings, IsActive) + |ids|
         >= CountIf(inv.listings, IsActive)
  {
    if ids != [] {
      var i := ids[|ids| - 1];
      var front := Disappearance.InactivateAll(inv, ids[..|ids| - 1], now);
      InactivationCost(inv, ids[..|ids| - 1], now);
      CountIfUpdate(front.listings, i,
                    front.listings[i].(lifecycle := Lifecycle.Inactive, inactiveAt := Some(now)), IsActive);
    }
  }

  // ---------------------------------------------------------------- one call

  /** One disappearance call costs at most the cap computed from the count it found. */
  lemma CallCostsAtMostTheCap(inv: Inventory, run: nat, now: Time)
    ensures Count(Disappearance.ProcessSourceRun(inv, run, now)) + Disappearance.Cap(Count(inv)) >= Count(inv)
  {
    hide Disappearance.Sweep, Disappearance.InactivateAll, Disappearance.EligibleUpTo,
      Disappearance.BreakerIssue, Disappearance.ActiveCount;
    CountIsActive(inv);
    CountIsActive(Disappearance.ProcessSourceRun(inv, run, now));
    if Disappearance.GateOpen(inv.runs, run) {
      var swept := Disappearance.Sweep(inv, run, now, |inv.links|);
      InactivationCost(swept, Disappearance.EligibleUpTo(swept, |swept.listings|), now);
    }
  }

  // ---------------------------------------------------------------- one step

  /** The step merges two listings here: refused merges and confirmed-distinct verdicts do not. */
  predicate Merges(inv: Inventory, step: Step) {
    match step
    case MergeStep(source, target, actor, _) => CheckMerge(inv.listings, source, target, actor).None?
    case VerdictStep(c, verdict, actor, now) =>
      verdict.duplicate && ResolveDuplicateCandidate(inv, c, verdict, actor, now).Success?
    case _ => false
  }

  /** The most a step can take from the ACTIVE count. */
  function Cost(inv: Inventory, step: Step): nat {
    if step.DisappearStep? then Disappearance.Cap(Count(inv)) else if Merges(inv, step) then 1 else 0
  }

  lemma MergeCostsOne(inv: Inventory, source: nat, target: nat, now: Time)
    requires source < |inv.listings| && target < |inv.listings| && source != target
    ensures CountIf(DoMerge(inv, source, target, now).listings, IsActive) + 1 >= CountIf(inv.listings, IsActive)
  {
    var retired := inv.listings[source := inv.listings[source].(lifecycle := Lifecycle.Merged)];
    CountIfUpdate(inv.listings, source, retired[source], IsActive);
    CountGrows(retired, DoMerge(inv, source, target, now).listings, IsActive);
  }

  /** A reversal restores a MERGED listing to review, so it takes nothing from the ACTIVE ones. */
  lemma ReverseCostsNothing(inv: Inventory, m: nat, now: Time)
    requires ForeignKeys(inv) && ForestSound(inv) && ActiveMerge(inv.merges, m)
    requires inv.merges[m].source < |inv.listings|
    ensures CountIf(DoReverse(inv, m, now).listings, IsActive) >= CountIf(inv.listings, IsActive)
  {
    var source := inv.merges[m].source;
    assert IsMerged(inv, source) <==> HasActiveMerge(inv.merges, source);
    CountGrows(inv.listings, DoReverse(inv, m, now).listings, IsActive);
  }

  lemma AdmissionCostsNothing(inv: Inventory, rows: seq<nat>, limit: nat, now: Time)
    requires ForeignKeys(inv) && Admission.IsSelection(inv.listings, rows, limit)
    ensures CountIf(Admission.EvaluateRows(inv, rows, now).listings, IsActive) >= CountIf(inv.listings, IsActive)
  {
    hide ForeignKeys;
    AdmissionShape(inv, rows, now);
    CountGrows(inv.listings, Admission.EvaluateRows(inv, rows, now).listings, IsActive);
  }

  lemma StepCostsAtMost(inv: Inventory, step: Step)
    requires ForeignKeys(inv) && ForestSound(inv)
    ensures Count(Apply(inv, step)) + Cost(inv, step) >= Count(inv)
  {
    hide ForeignKeys, ForestSound, DoMerge, DoReverse, Settle, Disappearance.ProcessSourceRun, Admission.EvaluateRows,
      Admission.IsSelection, Normalization.Normalized, Disappearance.ActiveCount, CountIf;
    CountIsActive(inv);
    CountIsActive(Apply(inv, step));
    match step {
      case NormalizeStep(o, via, now) =>
        NormalizeKeepsOwners(inv, o, via, now);
        forall i: nat | i < |inv.listings|
          ensures i < |Apply(inv, step).listings| && Apply(inv, step).listings[i].lifecycle == inv.listings[i].lifecycle
        {
          NormalizeKeepsLifecycle(inv, o, via, now, i);
        }
        CountGrows(inv.listings, Apply(inv, step).listings, IsActive);
      case MergeStep(source, target, actor, now) =>
        if CheckMerge(inv.listings, source, target, actor).None? { MergeCostsOne(inv, source, target, now); }
      case VerdictStep(c, verdict, actor, now) =>
        if ResolveDuplicateCandidate(inv, c, verdict, actor, now).Success? {
          VerdictCostsOne(inv, c, verdict, actor, now);
        }
      case ReverseStep(m, actor, now) =>
        if CheckReverse(inv.merges, m, actor).None? {
          ReverseKeepsKeys(inv, m, now);
          ReverseCostsNothing(inv, m, now);
        }
      case AdmitStep(rows, limit, now) =>
        if Admission.IsSelection(inv.listings, rows, limit) { AdmissionCostsNothing(inv, rows, limit, now); }
      case DisappearStep(run, now) => CallCostsAtMostTheCap(inv, run, now);
      case _ =>
    }
  }

  lemma VerdictCostsOne(inv: Inventory, c: nat, verdict: Verdict, actor: Actor, now: Time)
    requires ForeignKeys(inv) && ResolveDuplicateCandidate(inv, c, verdict, actor, now).Success?
    ensures CountIf(ResolveDuplicateCandidate(inv, c, verdict, actor, now).value.listings, IsActive)
              + (if verdict.duplicate then 1 else 0)
         >= CountIf(inv.listings, IsActive)
  {
    hide CountIf, DoMerge;
    if verdict.duplicate {
      MergeCostsOne(inv, MergedAway(inv.candidates[c], verdict), Survivor(inv.candidates[c], verdict), now);
    }
  }

  // ---------------------------------------------------------------- whole runs

  function Calls(steps: seq<Step>): nat {
    if steps == [] then 0 else (if steps[0].DisappearStep? then 1 else 0) + Calls(steps[1..])
  }

  /** How many steps of the run merge two listings. */
  ghost function MergeSteps(inv: Inventory, steps: seq<Step>): nat
    requires ForeignKeys(inv)
    decreases |steps|
  {
    if steps == [] then
      0
    else
      ApplyKeepsKeys(inv, steps[0]);
      (if Merges(inv, steps[0]) then 1 else 0) + MergeSteps(Apply(inv, steps[0]), steps[1..])
  }

  /** However the services interleave, k calls of the breaker and m merges take at most 50k + m active listings. */
  lemma {:induction false} RunCostsAtMost(inv: Inventory, steps: seq<Step>)
    requires ForeignKeys(inv) && ForestSound(inv)
    ensures Count(Run(inv, steps)) + 50 * Calls(steps) + MergeSteps(inv, steps) >= Count(inv)
    decreases |steps|
  {
    hide ForeignKeys, ForestSound, Apply, Count, Merges;
    if steps != [] {
      ApplyKeepsKeys(inv, steps[0]);
      StepKeepsForest(inv, steps[0]);
      StepCostsAtMost(inv, steps[0]);
      RunCostsAtMost(Apply(inv, steps[0]), steps[1..]);
    }
  }

  function Pow(base: nat, exponent: nat): nat {
    if exponent == 0 then 1 else base * Pow(base, exponent - 1)
  }

  /** Every disappearance call of the run finds at least four active listings. */
  ghost predicate FindsFour(inv: Inventory, steps: seq<Step>)
    requires ForeignKeys(inv)
    decreases |steps|
  {
    if steps == [] then
      true
    else
      ApplyKeepsKeys(inv, steps[0]);
      (steps[0].DisappearStep? ==> Count(inv) >= 4) && FindsFour(Apply(inv, steps[0]), steps[1..])
  }

  lemma ScaleBound(p: nat, q: nat, first: nat, second: nat, last: nat)
    requires 4 * second >= 3 * first && q * last >= p * second
    ensures (4 * q) * last >= (3 * p) * first
  {
    assert p * (4 * second) >= p * (3 * first);
    assert 4 * (q * last) >= 4 * (p * second);
    assert (4 * q) * last == 4 * (q * last) && (3 * p) * first == p * (3 * first);
    assert 4 * (p * second) == p * (4 * second);
  }

  lemma KeepBound(p: nat, q: nat, first: nat, second: nat, last: nat)
    requires second >= first && q * last >= p * second
    ensures q * last >= p * first
  {
    assert p * second >= p * first;
  }

  /** Without merges, and as long as each call finds four, k calls leave at least (3/4)^k of the active listings. */
  lemma {:induction false} RunKeepsAFraction(inv: Inventory, steps: seq<Step>)
    requires ForeignKeys(inv) && ForestSound(inv) && MergeSteps(inv, steps) == 0 && FindsFour(inv, steps)
    ensures Pow(4, Calls(steps)) * Count(Run(inv, steps)) >= Pow(3, Calls(steps)) * Count(inv)
    decreases |steps|
  {
    hide ForeignKeys, ForestSound, Apply, Count, Merges;
    if steps != [] {
      var next := Apply(inv, steps[0]);
      ApplyKeepsKeys(inv, steps[0]);
      StepKeepsForest(inv, steps[0]);
      StepCostsAtMost(inv, steps[0]);
      RunKeepsAFraction(next, steps[1..]);
      var k := Calls(steps[1..]);
      if steps[0].DisappearStep? {
        ScaleBound(Pow(3, k), Pow(4, k), Count(inv), Count(next), Count(Run(inv, steps)));
      } else {
        KeepBound(Pow(3, k), Pow(4, k), Count(inv), Count(next), Count(Run(inv, steps)));
      }
    }
  }
}
