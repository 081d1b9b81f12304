/** Merges form a forest, links never hang on a merged listing, and every listing has one survivor. */
module MergeForest {
  import opened Prelude
  import opened Schema
  import opened Normalization
  import opened MergeService
  import opened Engine
  import opened Shapes
  import Disappearance
  import Admission

  // ---------------------------------------------------------------- the invariants

  predicate ActiveMerge(merges: seq<Merge>, m: nat) {
    m < |merges| && merges[m].reversedAt.None?
  }

  predicate IsMerged(inv: Inventory, i: nat) {
    i < |inv.listings| && inv.listings[i].lifecycle == Lifecycle.Merged
  }

  ghost predicate HasActiveMerge(merges: seq<Merge>, i: nat) {
    exists m: nat :: ActiveMerge(merges, m) && merges[m].source == i
  }

  /** Unreversed merges: one per source, sources distinct from targets, and later ones further along every chain. */
  ghost predicate Forest(merges: seq<Merge>) {
    && (forall m: nat :: ActiveMerge(merges, m) ==> merges[m].source != merges[m].target)
    && (forall m: nat, n: nat | ActiveMerge(merges, m) && ActiveMerge(merges, n) ::
          merges[m].source == merges[n].source ==> m == n)
    && (forall m: nat, n: nat | ActiveMerge(merges, m) && ActiveMerge(merges, n) ::
          merges[m].target == merges[n].source ==> m < n)
  }

  /** MERGED exactly when some unreversed merge retired the listing. */
  ghost predicate MergedExactly(inv: Inventory) {
    forall i: nat :: i < |inv.listings| ==> (IsMerged(inv, i) <==> HasActiveMerge(inv.merges, i))
  }

  predicate LinksLive(inv: Inventory) {
    forall k :: 0 <= k < |inv.links| ==> !IsMerged(inv, inv.links[k].listing)
  }

  ghost predicate ForestSound(inv: Inventory) {
    Forest(inv.merges) && MergedExactly(inv) && LinksLive(inv)
  }

  // ---------------------------------------------------------------- steps that leave merges alone

  /** Merges and existing owners stay, no listing enters or leaves MERGED, new links go to unmerged listings. */
  predicate KeepsOwners(inv: Inventory, r: Inventory) {
    && r.merges == inv.merges
    && |inv.listings| <= |r.listings|
    && (forall i :: 0 <= i < |inv.listings| ==> (IsMerged(r, i) <==> IsMerged(inv, i)))
    && (forall i :: |inv.listings| <= i < |r.listings| ==> !IsMerged(r, i))
    && |inv.links| <= |r.links|
    && (forall k :: 0 <= k < |inv.links| ==> r.links[k].listing == inv.links[k].listing)
    && (forall k :: |inv.links| <= k < |r.links| ==> !IsMerged(r, r.links[k].listing))
  }

  predicate MovesLinks(step: Step) {
    step.MergeStep? || step.ReverseStep? || step.VerdictStep?
  }

  lemma NormalizeKeepsOwners(inv: Inventory, o: nat, via: DiscoveryMethod, now: Time)
    requires ForeignKeys(inv)
    ensures KeepsOwners(inv, Normalized(inv, o, via, now))
  {
    hide AddListing, UpdateExisting, PlacesGrow, PlacesRefer, Normalized, CaseOf, MatchingLinks;
    NormalizedByCase(inv, o, via, now);
    match CaseOf(inv, o)
    case Nothing =>
    case Attaching(places, listing, identity) =>
    case Adding(places, building, unit) =>
      AddShape(inv.(places := places), o, building, unit, via, now);
    case Updating(k) =>
      UpdateShape(inv, o, k, now);
  }

  lemma OtherStepKeepsOwners(inv: Inventory, step: Step)
    requires ForeignKeys(inv) && !MovesLinks(step)
    ensures KeepsOwners(inv, Apply(inv, step))
  {
    hide ForeignKeys, Normalized, Disappearance.ProcessSourceRun, Admission.EvaluateRows;
    match step {
      case NormalizeStep(o, via, now) => NormalizeKeepsOwners(inv, o, via, now);
      case DisappearStep(run, now) => DisappearanceShape(inv, run, now);
      case AdmitStep(rows, limit, now) =>
        if Admission.IsSelection(inv.listings, rows, limit) {
          AdmissionShape(inv, rows, now);
          assert forall a :: 0 <= a < |rows| ==> Admission.IsPending(inv.listings[rows[a]]);
        }
      case _ =>
    }
  }

  lemma KeepsOwnersKeepsForest(inv: Inventory, r: Inventory)
    requires ForeignKeys(inv) && ForestSound(inv) && KeepsOwners(inv, r)
    ensures ForestSound(r)
  {
    assert forall m: nat :: m < |inv.merges| ==> MergeRefers(inv.merges[m], inv);
    forall k | 0 <= k < |r.links| ensures !IsMerged(r, r.links[k].listing) {
      if k < |inv.links| {
        assert LinkRefers(inv.links[k], inv) && !IsMerged(inv, inv.links[k].listing);
      }
    }
  }

  // ---------------------------------------------------------------- merging and reversing

  lemma MergeKeepsForest(inv: Inventory, source: nat, target: nat, now: Time)
    requires ForeignKeys(inv) && ForestSound(inv)
    requires source < |inv.listings| && target < |inv.listings| && source != target
    requires !IsMerged(inv, source) && !IsMerged(inv, target)
    ensures ForestSound(DoMerge(inv, source, target, now))
  {
    var r := DoMerge(inv, source, target, now);
    var last := |inv.merges|;
    assert forall m: nat :: m < last ==> (ActiveMerge(r.merges, m) <==> ActiveMerge(inv.merges, m));
    assert ActiveMerge(r.merges, last) && r.merges[last].source == source;
    forall m: nat | ActiveMerge(inv.merges, m)
      ensures inv.merges[m].source != source && inv.merges[m].source != target
    {
      assert MergeRefers(inv.merges[m], inv);
      assert HasActiveMerge(inv.merges, inv.merges[m].source);
    }
    forall i: nat | i < |r.listings| ensures IsMerged(r, i) <==> HasActiveMerge(r.merges, i) {
      assert IsMerged(inv, i) <==> HasActiveMerge(inv.merges, i);
      if HasActiveMerge(inv.merges, i) {
        var m: nat :| ActiveMerge(inv.merges, m) && inv.merges[m].source == i;
        assert ActiveMerge(r.merges, m);
      }
    }
  }

  lemma ReverseKeepsForest(inv: Inventory, m: nat, now: Time)
    requires ForeignKeys(inv) && ForestSound(inv) && ActiveMerge(inv.merges, m)
    requires inv.merges[m].source < |inv.listings|
    ensures ForestSound(DoReverse(inv, m, now))
  {
    var r := DoReverse(inv, m, now);
    var source := inv.merges[m].source;
    assert forall n: nat :: ActiveMerge(r.merges, n) <==> ActiveMerge(inv.merges, n) && n != m;
    forall i: nat | i < |r.listings| ensures IsMerged(r, i) <==> HasActiveMerge(r.merges, i) {
      assert IsMerged(inv, i) <==> HasActiveMerge(inv.merges, i);
      if HasActiveMerge(inv.merges, i) && i != source {
        var n: nat :| ActiveMerge(inv.merges, n) && inv.merges[n].source == i;
        assert ActiveMerge(r.merges, n);
      }
    }
  }

  lemma StepKeepsForest(inv: Inventory, step: Step)
    requires ForeignKeys(inv) && ForestSound(inv)
    ensures ForestSound(Apply(inv, step))
  {
    hide ForeignKeys, ForestSound, DoMerge, DoReverse, Settle, KeepsOwners;
    match step {
      case MergeStep(source, target, actor, now) =>
        if CheckMerge(inv.listings, source, target, actor).None? {
          MergeKeepsForest(inv, source, target, now);
        }
      case ReverseStep(m, actor, now) =>
        if CheckReverse(inv.merges, m, actor).None? {
          ReverseKeepsKeys(inv, m, now);
          ReverseKeepsForest(inv, m, now);
        }
      case VerdictStep(c, verdict, actor, now) =>
        if ResolveDuplicateCandidate(inv, c, verdict, actor, now).Success? {
          VerdictKeepsForest(inv, c, verdict, actor, now);
        }
      case _ =>
        OtherStepKeepsOwners(inv, step);
        KeepsOwnersKeepsForest(inv, Apply(inv, step));
    }
  }

  lemma VerdictKeepsForest(inv: Inventory, c: nat, verdict: Verdict, actor: Actor, now: Time)
    requires ForeignKeys(inv) && ForestSound(inv)
    requires ResolveDuplicateCandidate(inv, c, verdict, actor, now).Success?
    ensures ForestSound(ResolveDuplicateCandidate(inv, c, verdict, actor, now).value)
  {
    if verdict.duplicate {
      MergeKeepsForest(inv, MergedAway(inv.candidates[c], verdict), Survivor(inv.candidates[c], verdict), now);
    }
  }

  /** Cross-service safety: in every reachable state no source link hangs on a MERGED listing. */
  lemma {:induction false} RunKeepsForest(inv: Inventory, steps: seq<Step>)
    requires ForeignKeys(inv) && ForestSound(inv)
    ensures ForestSound(Run(inv, steps))
    decreases |steps|
  {
    if steps != [] {
      StepKeepsForest(inv, steps[0]);
      ApplyKeepsKeys(inv, steps[0]);
      RunKeepsForest(Apply(inv, steps[0]), steps[1..]);
    }
  }

  // ---------------------------------------------------------------- following merges to the survivor

  /** `path` is a chain of unreversed merges from listing `i` to listing `j`. */
  ghost predicate Leads(merges: seq<Merge>, path: seq<nat>, i: nat, j: nat)
    decreases |path|
  {
    if path == [] then
      i == j
    else
      && ActiveMerge(merges, path[0]) && merges[path[0]].source == i
      && Leads(merges, path[1..], merges[path[0]].target, j)
  }

  /** Follow the unreversed merges, each later than the one before; this is why following them terminates. */
  ghost function Root(merges: seq<Merge>, i: nat, from: nat): nat
    decreases |merges| - from
  {
    if exists m: nat :: from <= m && ActiveMerge(merges, m) && merges[m].source == i then
      var m: nat :| from <= m && ActiveMerge(merges, m) && merges[m].source == i;
      Root(merges, merges[m].target, m + 1)
    else
      i
  }

  lemma {:induction false} ChainRises(merges: seq<Merge>, path: seq<nat>, i: nat, j: nat)
    requires Forest(merges) && Leads(merges, path, i, j)
    ensures forall a :: 0 <= a < |path| ==> path[0] <= path[a] && ActiveMerge(merges, path[a])
    ensures path != [] ==> merges[path[|path| - 1]].target == j
    decreases |path|
  {
    if |path| > 1 {
      ChainRises(merges, path[1..], merges[path[0]].target, j);
      assert forall a :: 0 < a < |path| ==> path[a] == path[1..][a - 1];
    }
  }

  /** Unreversed merges are acyclic. */
  lemma NoMergeCycle(merges: seq<Merge>, path: seq<nat>, i: nat)
    requires Forest(merges) && Leads(merges, path, i, i)
    ensures path == []
  {
    ChainRises(merges, path, i, i);
  }

  lemma {:induction false} RootIsReached(merges: seq<Merge>, i: nat, from: nat) returns (path: seq<nat>)
    requires Forest(merges)
    requires forall m: nat | m < from :: ActiveMerge(merges, m) ==> merges[m].source != i
    ensures Leads(merges, path, i, Root(merges, i, from)) && !HasActiveMerge(merges, Root(merges, i, from))
    decreases |merges| - from
  {
    path := [];
    if exists m: nat :: from <= m && ActiveMerge(merges, m) && merges[m].source == i {
      var m: nat :| from <= m && ActiveMerge(merges, m) && merges[m].source == i;
      var rest := RootIsReached(merges, merges[m].target, m + 1);
      path := [m] + rest;
      assert path[1..] == rest;
    }
  }

  lemma {:induction false} RootIsUnique(merges: seq<Merge>, path: seq<nat>, i: nat, j: nat, from: nat)
    requires Forest(merges) && Leads(merges, path, i, j) && !HasActiveMerge(merges, j)
    requires forall m: nat | m < from :: ActiveMerge(merges, m) ==> merges[m].source != i
    ensures j == Root(merges, i, from)
    decreases |path|
  {
    if path != [] {
      RootIsUnique(merges, path[1..], merges[path[0]].target, j, path[0] + 1);
    }
  }

  /** Every listing has exactly one survivor: unmerged, and the only unmerged listing its merges lead to. */
  lemma SurvivorExistsUniquely(inv: Inventory, i: nat) returns (path: seq<nat>)
    requires ForeignKeys(inv) && ForestSound(inv) && i < |inv.listings|
    ensures Root(inv.merges, i, 0) < |inv.listings| && !IsMerged(inv, Root(inv.merges, i, 0))
    ensures Leads(inv.merges, path, i, Root(inv.merges, i, 0))
    ensures forall other: seq<nat>, j: nat ::
              Leads(inv.merges, other, i, j) && j < |inv.listings| && !IsMerged(inv, j) ==> j == Root(inv.merges, i, 0)
  {
    path := RootIsReached(inv.merges, i, 0);
    ChainRises(inv.merges, path, i, Root(inv.merges, i, 0));
    assert forall m: nat :: m < |inv.merges| ==> MergeRefers(inv.merges[m], inv);
    forall other: seq<nat>, j: nat | Leads(inv.merges, other, i, j) && j < |inv.listings| && !IsMerged(inv, j)
      ensures j == Root(inv.merges, i, 0)
    {
      RootIsUnique(inv.merges, other, i, j, 0);
    }
  }

  lemma {:induction false} LeadsExtends(merges: seq<Merge>, more: seq<Merge>, path: seq<nat>, i: nat, j: nat)
    requires merges <= more && Leads(merges, path, i, j)
    ensures Leads(more, path, i, j)
    decreases |path|
  {
    if path != [] {
      LeadsExtends(merges, more, path[1..], merges[path[0]].target, j);
    }
  }

  lemma {:induction false} LeadsConcat(merges: seq<Merge>, path: seq<nat>, m: nat, i: nat, j: nat)
    requires Leads(merges, path, i, j) && ActiveMerge(merges, m) && merges[m].source == j
    ensures Leads(merges, path + [m], i, merges[m].target)
    decreases |path|
  {
    if path != [] {
      LeadsConcat(merges, path[1..], m, merges[path[0]].target, j);
      assert (path + [m])[1..] == path[1..] + [m];
    } else {
      assert (path + [m])[1..] == [];
    }
  }

  /** One merge moves the survivor of whatever survived as its source, and of nothing else. */
  lemma MergeMovesRoot(inv: Inventory, source: nat, target: nat, now: Time, i: nat)
    requires ForeignKeys(inv) && ForestSound(inv)
    requires source < |inv.listings| && target < |inv.listings| && source != target
    requires !IsMerged(inv, source) && !IsMerged(inv, target)
    ensures
      var root := Root(inv.merges, i, 0);
      Root(DoMerge(inv, source, target, now).merges, i, 0) == if root == source then target else root
  {
    var r := DoMerge(inv, source, target, now);
    var last := |inv.merges|;
    MergeKeepsForest(inv, source, target, now);
    var path := RootIsReached(inv.merges, i, 0);
    var root := Root(inv.merges, i, 0);
    LeadsExtends(inv.merges, r.merges, path, i, root);
    assert forall m: nat :: ActiveMerge(r.merges, m) && m != last ==> ActiveMerge(inv.merges, m);
    if root == source {
      LeadsConcat(r.merges, path, last, i, root);
      assert !HasActiveMerge(r.merges, target) by {
        assert IsMerged(r, target) <==> HasActiveMerge(r.merges, target);
      }
      RootIsUnique(r.merges, path + [last], i, target, 0);
    } else {
      RootIsUnique(r.merges, path, i, root, 0);
    }
  }

  lemma StepTracksSurvivor(inv: Inventory, step: Step, k: nat, origin: nat)
    requires ForeignKeys(inv) && ForestSound(inv) && !step.ReverseStep?
    requires k < |inv.links| && inv.links[k].listing == Root(inv.merges, origin, 0)
    ensures k < |Apply(inv, step).links|
    ensures Apply(inv, step).links[k].listing == Root(Apply(inv, step).merges, origin, 0)
  {
    hide ForeignKeys, ForestSound, Root;
    match step {
      case MergeStep(source, target, actor, now) =>
        if CheckMerge(inv.listings, source, target, actor).None? {
          MergeMovesRoot(inv, source, target, now, origin);
        }
      case VerdictStep(c, verdict, actor, now) =>
        if ResolveDuplicateCandidate(inv, c, verdict, actor, now).Success? && verdict.duplicate {
          MergeMovesRoot(
            inv, MergedAway(inv.candidates[c], verdict), Survivor(inv.candidates[c], verdict), now, origin);
        }
      case _ =>
        OtherStepKeepsOwners(inv, step);
    }
  }

  lemma {:induction false} RunTracksSurvivor(inv: Inventory, steps: seq<Step>, k: nat, origin: nat)
    requires ForeignKeys(inv) && ForestSound(inv) && NoReversals(steps)
    requires k < |inv.links| && inv.links[k].listing == Root(inv.merges, origin, 0)
    ensures k < |Run(inv, steps).links|
    ensures Run(inv, steps).links[k].listing == Root(Run(inv, steps).merges, origin, 0)
    decreases |steps|
  {
    if steps != [] {
      StepTracksSurvivor(inv, steps[0], k, origin);
      StepKeepsForest(inv, steps[0]);
      ApplyKeepsKeys(inv, steps[0]);
      RunTracksSurvivor(Apply(inv, steps[0]), steps[1..], k, origin);
    }
  }

  /** Without reversals, a link always points at the survivor of the listing it was attached to at any earlier time. */
  lemma LinksFollowSurvivors(inv: Inventory, steps: seq<Step>, k: nat)
    requires ForeignKeys(inv) && ForestSound(inv) && NoReversals(steps) && k < |inv.links|
    ensures k < |Run(inv, steps).links|
    ensures Run(inv, steps).links[k].listing == Root(Run(inv, steps).merges, inv.links[k].listing, 0)
  {
    var owner := inv.links[k].listing;
    assert LinkRefers(inv.links[k], inv);
    assert IsMerged(inv, owner) <==> HasActiveMerge(inv.merges, owner);
    RootIsUnique(inv.merges, [], owner, owner, 0);
    RunTracksSurvivor(inv, steps, k, owner);
  }
}
