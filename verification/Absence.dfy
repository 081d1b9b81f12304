/** What absence may and may not do over whole runs: evidence, permanence, and who is left alone. */
module Absence {
  import opened Prelude
  import opened Schema
  import opened FactHistory
  import opened Normalization
  import opened MergeService
  import opened Engine
  import opened Shapes
  import opened Disappearance
  import Admission

  // ---------------------------------------------------------------- evidence

  /** What a disappearance run did to link `k`: its status is the next one, decided by the state before the run. */
  lemma SweptStatus(inv: Inventory, run: nat, now: Time, k: nat)
    requires k < |inv.links|
    ensures k < |ProcessSourceRun(inv, run, now).links|
    ensures ProcessSourceRun(inv, run, now).links[k].status
         == if GateOpen(inv.runs, run) then NextStatus(inv, inv.links[k], run, now) else inv.links[k].status
  {
    hide InactivateAll, EligibleUpTo, Trips, BreakerIssue, NextStatus;
    if GateOpen(inv.runs, run) {
      var swept := Sweep(inv, run, now, |inv.links|);
      InactivateAllShape(swept, EligibleUpTo(swept, |swept.listings|), now);
    }
  }

  /**
   * The evidence a removal rests on: the link's newest processed observation is not of the gate-passed run, two
   * gate-passed runs started since it was last seen, and 36 hours passed. Whether those runs saw it is not asked.
   */
  predicate RemovalEvidence(inv: Inventory, link: Link, run: nat, now: Time) {
    && run < |inv.runs| && inv.runs[run].gatePassed == Some(true) && inv.runs[run].source == link.source
    && (link.status == LinkStatus.Active || link.status == LinkStatus.Missing)
    && !ObservedIn(inv.observations, link, run)
    && HealthyRunsSince(inv.runs, link.source, link.lastSeenAt) >= 2
    && now - link.lastSeenAt >= 36 * 3600
  }

  /** A step removes a link exactly when it is a disappearance run with that evidence; no other step ever does. */
  lemma RemovedExactlyOnEvidence(inv: Inventory, step: Step, k: nat)
    requires ForeignKeys(inv) && k < |inv.links| && inv.links[k].status != LinkStatus.Removed
    ensures k < |Apply(inv, step).links|
    ensures Apply(inv, step).links[k].status == LinkStatus.Removed <==>
      step.DisappearStep? && RemovalEvidence(inv, inv.links[k], step.run, step.now)
  {
    hide HealthyRunsSince, ObservedIn, ProcessSourceRun, Apply, ForeignKeys;
    if step.DisappearStep? {
      SweptStatus(inv, step.run, step.now, k);
      assert Apply(inv, step) == ProcessSourceRun(inv, step.run, step.now) by { DisappearApplies(inv, step); }
    } else {
      OtherStepKeepsStatus(inv, step, k);
    }
  }

  lemma DisappearApplies(inv: Inventory, step: Step)
    requires ForeignKeys(inv) && step.DisappearStep?
    ensures Apply(inv, step) == ProcessSourceRun(inv, step.run, step.now)
  {
    hide ProcessSourceRun;
  }

  /** Only a disappearance run writes the status of an existing link. */
  lemma OtherStepKeepsStatus(inv: Inventory, step: Step, k: nat)
    requires ForeignKeys(inv) && !step.DisappearStep? && k < |inv.links|
    ensures k < |Apply(inv, step).links| && Apply(inv, step).links[k].status == inv.links[k].status
  {
    hide ForeignKeys, Normalized, Admission.EvaluateRows, Emit, MovedLinks;
    match step {
      case NormalizeStep(o, via, now) => NormalizeKeepsStatus(inv, o, via, now, k);
      case ReverseStep(m, actor, now) =>
        if CheckReverse(inv.merges, m, actor).None? { ReverseKeepsKeys(inv, m, now); }
      case DisappearStep(_, _) =>
      case _ =>
    }
  }

  lemma NormalizeKeepsStatus(inv: Inventory, o: nat, via: DiscoveryMethod, now: Time, k: nat)
    requires ForeignKeys(inv) && k < |inv.links|
    ensures k < |Normalized(inv, o, via, now).links|
    ensures Normalized(inv, o, via, now).links[k].status == inv.links[k].status
  {
    hide AddListing, UpdateExisting, PlacesGrow, PlacesRefer, Normalized, CaseOf, MatchingLinks;
    NormalizedByCase(inv, o, via, now);
    match CaseOf(inv, o)
    case Nothing =>
    case Attaching(places, listing, identity) =>
    case Adding(places, building, unit) => AddShape(inv.(places := places), o, building, unit, via, now);
    case Updating(j) => UpdateShape(inv, o, j, now);
  }

  /** A REMOVED link stays REMOVED in every run: no service reactivates it. */
  lemma {:induction false} RemovedForever(inv: Inventory, steps: seq<Step>, k: nat)
    requires ForeignKeys(inv) && k < |inv.links| && inv.links[k].status == LinkStatus.Removed
    ensures k < |Run(inv, steps).links| && Run(inv, steps).links[k].status == LinkStatus.Removed
    decreases |steps|
  {
    hide ForeignKeys, Apply, ProcessSourceRun;
    if steps != [] {
      ApplyKeepsKeys(inv, steps[0]);
      if steps[0].DisappearStep? {
        SweptStatus(inv, steps[0].run, steps[0].now, k);
        DisappearApplies(inv, steps[0]);
      } else {
        OtherStepKeepsStatus(inv, steps[0], k);
      }
      RemovedForever(Apply(inv, steps[0]), steps[1..], k);
    }
  }

  // ---------------------------------------------------------------- inactivation

  lemma EligibleIffListed(inv: Inventory, i: nat)
    requires i < |inv.listings|
    ensures i in EligibleUpTo(inv, |inv.listings|) <==> Eligible(inv, i)
  {
    var ids := EligibleUpTo(inv, |inv.listings|);
    if i in ids {
      var a :| 0 <= a < |ids| && ids[a] == i;
    }
  }

  /** All eligible listings or none: the breaker decides for the whole batch. */
  lemma AllEligibleOrNone(inv: Inventory, run: nat, now: Time, i: nat)
    requires run < |inv.runs| && i < |inv.listings|
    ensures
      var swept := Sweep(inv, run, now, |inv.links|);
      ProcessSourceRun(inv, run, now).listings[i] ==
        if GateOpen(inv.runs, run) && !Trips(swept) && Eligible(swept, i)
        then inv.listings[i].(lifecycle := Lifecycle.Inactive, inactiveAt := Some(now))
        else inv.listings[i]
  {
    hide InactivateAll, EligibleUpTo, Trips, BreakerIssue, Sweep;
    if GateOpen(inv.runs, run) {
      var swept := Sweep(inv, run, now, |inv.links|);
      InactivateAllShape(swept, EligibleUpTo(swept, |swept.listings|), now);
      EligibleIffListed(swept, i);
    }
  }

  /** A step inactivates a listing only without a supporting link and without a lifecycle override, below the cap. */
  lemma InactiveOnlyUnsupported(inv: Inventory, step: Step, i: nat)
    requires ForeignKeys(inv) && i < |inv.listings| && inv.listings[i].lifecycle != Lifecycle.Inactive
    ensures i < |Apply(inv, step).listings|
    ensures Apply(inv, step).listings[i].lifecycle == Lifecycle.Inactive ==>
      && step.DisappearStep? && GateOpen(inv.runs, step.run)
      && (inv.listings[i].lifecycle == Lifecycle.Active || inv.listings[i].lifecycle == Lifecycle.Candidate)
      && !Supported(Apply(inv, step).links, i)
      && !Overridden(inv.facts.overrides, i, LifecycleField)
      && !Trips(Sweep(inv, step.run, step.now, |inv.links|))
  {
    hide ForeignKeys, ProcessSourceRun, Trips, Supported, Sweep, Apply;
    if step.DisappearStep? {
      DisappearApplies(inv, step);
      DisappearanceShape(inv, step.run, step.now);
      if GateOpen(inv.runs, step.run) {
        AllEligibleOrNone(inv, step.run, step.now, i);
        assert ProcessSourceRun(inv, step.run, step.now).links == Sweep(inv, step.run, step.now, |inv.links|).links by {
          SweptLinks(inv, step.run, step.now);
        }
      } else {
        ClosedGateDoesNothing(inv, step.run, step.now);
      }
    } else {
      OtherStepInactivatesNone(inv, step, i);
    }
  }

  lemma ClosedGateDoesNothing(inv: Inventory, run: nat, now: Time)
    requires !GateOpen(inv.runs, run)
    ensures ProcessSourceRun(inv, run, now) == inv
  {
  }

  lemma SweptLinks(inv: Inventory, run: nat, now: Time)
    requires GateOpen(inv.runs, run)
    ensures ProcessSourceRun(inv, run, now).links == Sweep(inv, run, now, |inv.links|).links
  {
    hide InactivateAll, EligibleUpTo, Trips, BreakerIssue, Sweep;
  }

  lemma OtherStepInactivatesNone(inv: Inventory, step: Step, i: nat)
    requires ForeignKeys(inv) && !step.DisappearStep? && i < |inv.listings|
    ensures i < |Apply(inv, step).listings|
    ensures Apply(inv, step).listings[i].lifecycle == Lifecycle.Inactive ==>
              inv.listings[i].lifecycle == Lifecycle.Inactive
    ensures Apply(inv, step).listings[i].lifecycle == Lifecycle.Reappeared ==>
              inv.listings[i].lifecycle == Lifecycle.Reappeared
  {
    hide ForeignKeys, Normalized, Admission.EvaluateRows, Emit, Relink, MovedLinks, MoveBack;
    match step {
      case NormalizeStep(o, via, now) => NormalizeKeepsLifecycle(inv, o, via, now, i);
      case ReverseStep(m, actor, now) =>
        if CheckReverse(inv.merges, m, actor).None? { ReverseKeepsKeys(inv, m, now); }
      case AdmitStep(rows, limit, now) =>
        if Admission.IsSelection(inv.listings, rows, limit) { AdmissionShape(inv, rows, now); }
      case DisappearStep(_, _) =>
      case _ =>
    }
  }

  lemma NormalizeKeepsLifecycle(inv: Inventory, o: nat, via: DiscoveryMethod, now: Time, i: nat)
    requires ForeignKeys(inv) && i < |inv.listings|
    ensures i < |Normalized(inv, o, via, now).listings|
    ensures Normalized(inv, o, via, now).listings[i].lifecycle == inv.listings[i].lifecycle
  {
    hide AddListing, UpdateExisting, PlacesGrow, PlacesRefer, Normalized, CaseOf, MatchingLinks;
    NormalizedByCase(inv, o, via, now);
    match CaseOf(inv, o)
    case Nothing =>
    case Attaching(places, listing, identity) =>
    case Adding(places, building, unit) => AddShape(inv.(places := places), o, building, unit, via, now);
    case Updating(k) => UpdateShape(inv, o, k, now);
  }

  // ---------------------------------------------------------------- search-index histories

  predicate NoGatePassed(runs: seq<SourceRun>) {
    forall r :: 0 <= r < |runs| ==> runs[r].gatePassed != Some(true)
  }

  predicate NothingAbsent(inv: Inventory) {
    && NoGatePassed(inv.runs)
    && (forall k :: 0 <= k < |inv.links| ==> inv.links[k].status == LinkStatus.Active)
    && (forall i :: 0 <= i < |inv.listings| ==> inv.listings[i].lifecycle != Lifecycle.Inactive)
  }

  predicate SearchIndexOnly(step: Step) {
    step.CloseRun? ==> step.via == DiscoveryMethod.SearchIndex
  }

  lemma StepKeepsPresent(inv: Inventory, step: Step)
    requires ForeignKeys(inv) && NothingAbsent(inv) && SearchIndexOnly(step)
    ensures NothingAbsent(Apply(inv, step))
  {
    hide ForeignKeys, Normalized, Admission.EvaluateRows, Emit, MovedLinks;
    var r := Apply(inv, step);
    match step {
      case NormalizeStep(o, via, now) =>
        forall k: nat | k < |r.links| ensures r.links[k].status == LinkStatus.Active {
          if k < |inv.links| { NormalizeKeepsStatus(inv, o, via, now, k); } else { NewLinksActive(inv, o, via, now); }
        }
        forall i: nat | i < |r.listings| ensures r.listings[i].lifecycle != Lifecycle.Inactive {
          if i < |inv.listings| {
            NormalizeKeepsLifecycle(inv, o, via, now, i);
          } else {
            NewListingsCandidate(inv, o, via, now);
          }
        }
        NormalizeKeepsRuns(inv, o, via, now);
      case DisappearStep(run, now) => ClosedGateDoesNothing(inv, run, now);
      case ReverseStep(m, actor, now) =>
        if CheckReverse(inv.merges, m, actor).None? { ReverseKeepsKeys(inv, m, now); }
      case AdmitStep(rows, limit, now) =>
        if Admission.IsSelection(inv.listings, rows, limit) { AdmissionShape(inv, rows, now); }
      case _ =>
    }
  }

  lemma NewLinksActive(inv: Inventory, o: nat, via: DiscoveryMethod, now: Time)
    requires ForeignKeys(inv)
    ensures forall n :: |inv.links| <= n < |Normalized(inv, o, via, now).links| ==>
              Normalized(inv, o, via, now).links[n].status == LinkStatus.Active
  {
    hide AddListing, UpdateExisting, PlacesGrow, PlacesRefer, Normalized, CaseOf, MatchingLinks;
    NormalizedByCase(inv, o, via, now);
    match CaseOf(inv, o)
    case Nothing =>
    case Attaching(places, listing, identity) =>
    case Adding(places, building, unit) => AddShape(inv.(places := places), o, building, unit, via, now);
    case Updating(j) => UpdateShape(inv, o, j, now);
  }

  lemma NewListingsCandidate(inv: Inventory, o: nat, via: DiscoveryMethod, now: Time)
    requires ForeignKeys(inv)
    ensures forall n :: |inv.listings| <= n < |Normalized(inv, o, via, now).listings| ==>
              Normalized(inv, o, via, now).listings[n].lifecycle == Lifecycle.Candidate
  {
    hide AddListing, UpdateExisting, PlacesGrow, PlacesRefer, Normalized, CaseOf, MatchingLinks;
    NormalizedByCase(inv, o, via, now);
    match CaseOf(inv, o)
    case Nothing =>
    case Attaching(places, listing, identity) =>
    case Adding(places, building, unit) => AddShape(inv.(places := places), o, building, unit, via, now);
    case Updating(j) => UpdateShape(inv, o, j, now);
  }

  lemma NormalizeKeepsRuns(inv: Inventory, o: nat, via: DiscoveryMethod, now: Time)
    requires ForeignKeys(inv)
    ensures Normalized(inv, o, via, now).runs == inv.runs
  {
    hide AddListing, UpdateExisting, PlacesGrow, PlacesRefer, Normalized, CaseOf, MatchingLinks;
    NormalizedByCase(inv, o, via, now);
    match CaseOf(inv, o)
    case Nothing =>
    case Attaching(places, listing, identity) =>
    case Adding(places, building, unit) => AddShape(inv.(places := places), o, building, unit, via, now);
    case Updating(j) => UpdateShape(inv, o, j, now);
  }

  /** A history whose source runs are all search-discovered never marks a link and never inactivates a listing. */
  lemma {:induction false} SearchIndexNeverProvesAbsence(inv: Inventory, steps: seq<Step>)
    requires ForeignKeys(inv) && NothingAbsent(inv)
    requires forall s :: 0 <= s < |steps| ==> SearchIndexOnly(steps[s])
    ensures NothingAbsent(Run(inv, steps))
    decreases |steps|
  {
    hide ForeignKeys, Apply, NothingAbsent;
    if steps != [] {
      ApplyKeepsKeys(inv, steps[0]);
      StepKeepsPresent(inv, steps[0]);
      SearchIndexNeverProvesAbsence(Apply(inv, steps[0]), steps[1..]);
    }
  }

  /** No service ever writes REAPPEARED. */
  lemma {:induction false} NeverReappears(inv: Inventory, steps: seq<Step>, i: nat)
    requires ForeignKeys(inv) && i < |inv.listings| && inv.listings[i].lifecycle != Lifecycle.Reappeared
    ensures i < |Run(inv, steps).listings| && Run(inv, steps).listings[i].lifecycle != Lifecycle.Reappeared
    decreases |steps|
  {
    hide ForeignKeys, Apply, ProcessSourceRun;
    if steps != [] {
      ApplyKeepsKeys(inv, steps[0]);
      if steps[0].DisappearStep? {
        DisappearApplies(inv, steps[0]);
        DisappearanceShape(inv, steps[0].run, steps[0].now);
      } else {
        OtherStepInactivatesNone(inv, steps[0], i);
      }
      NeverReappears(Apply(inv, steps[0]), steps[1..], i);
    }
  }
}
