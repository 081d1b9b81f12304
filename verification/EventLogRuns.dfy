/** The event log over whole runs: in-order arrival keeps it in agreement, and it only ever grows. */
module EventLogRuns {
  import opened Prelude
  import opened Schema
  import opened FactHistory
  import opened Normalization
  import opened MergeService
  import opened Engine
  import opened Shapes
  import opened EventLog
  import Disappearance
  import Admission

  // ---------------------------------------------------------------- steps that leave fields alone

  /** Links keep their identity and only get fresher. */
  predicate LinksAge(before: seq<Link>, after: seq<Link>) {
    && |before| <= |after|
    && (forall k :: 0 <= k < |before| ==>
          && after[k].source == before[k].source && after[k].nativeId == before[k].nativeId
          && after[k].url == before[k].url && before[k].lastSeenAt <= after[k].lastSeenAt)
  }

  predicate QuietStep(inv: Inventory, r: Inventory) {
    && QuietLog(inv.events, r.events)
    && inv.observations <= r.observations
    && |r.listings| == |inv.listings|
    && (forall j :: 0 <= j < |inv.listings| ==> SameFields(inv.listings[j], r.listings[j]))
    && LinksAge(inv.links, r.links)
  }

  lemma {:induction false} SweepIsQuiet(inv: Inventory, run: nat, now: Time, upTo: nat)
    requires upTo <= |inv.links| && run < |inv.runs|
    ensures QuietLog(inv.events, Disappearance.Sweep(inv, run, now, upTo).events)
  {
    if upTo > 0 {
      hide HasKey, Disappearance.StartsMissing;
      SweepIsQuiet(inv, run, now, upTo - 1);
    }
  }

  lemma {:induction false} InactivateAllIsQuiet(inv: Inventory, ids: seq<nat>, now: Time)
    requires forall a :: 0 <= a < |ids| ==> ids[a] < |inv.listings|
    ensures QuietLog(inv.events, Disappearance.InactivateAll(inv, ids, now).events)
  {
    if ids != [] {
      hide HasKey;
      InactivateAllIsQuiet(inv, ids[..|ids| - 1], now);
    }
  }

  lemma DisappearanceIsQuiet(inv: Inventory, run: nat, now: Time)
    ensures QuietStep(inv, Disappearance.ProcessSourceRun(inv, run, now))
  {
    hide Disappearance.Sweep, Disappearance.InactivateAll, Disappearance.EligibleUpTo,
      Disappearance.Trips, Disappearance.BreakerIssue;
    DisappearanceShape(inv, run, now);
    if Disappearance.GateOpen(inv.runs, run) {
      var swept := Disappearance.Sweep(inv, run, now, |inv.links|);
      SweepIsQuiet(inv, run, now, |inv.links|);
      InactivateAllIsQuiet(swept, Disappearance.EligibleUpTo(swept, |swept.listings|), now);
      QuietThen(inv.events, swept.events, Disappearance.InactivateUnsupported(swept, now).events);
    }
  }

  lemma {:induction false} AdmissionIsQuiet(inv: Inventory, rows: seq<nat>, now: Time)
    requires ForeignKeys(inv) && forall a :: 0 <= a < |rows| ==> rows[a] < |inv.listings|
    ensures QuietLog(inv.events, Admission.EvaluateRows(inv, rows, now).events)
  {
    if rows != [] {
      hide ForeignKeys, QuietLog, Admission.EvaluateOne;
      var before := Admission.EvaluateRows(inv, rows[..|rows| - 1], now);
      AdmissionIsQuiet(inv, rows[..|rows| - 1], now);
      EvaluationIsQuiet(before, rows[|rows| - 1], now);
      QuietThen(inv.events, before.events, Admission.EvaluateRows(inv, rows, now).events);
    }
  }

  lemma EvaluationIsQuiet(inv: Inventory, i: nat, now: Time)
    requires ForeignKeys(inv) && i < |inv.listings|
    ensures QuietLog(inv.events, Admission.EvaluateOne(inv, i, now).events)
  {
    hide HasKey, ForeignKeys, Admission.DecisionFor;
  }

  lemma MergeIsQuiet(inv: Inventory, source: nat, target: nat, now: Time)
    requires source < |inv.listings| && target < |inv.listings| && source != target
    ensures QuietStep(inv, DoMerge(inv, source, target, now))
  {
    hide HasKey;
  }

  lemma ReverseIsQuiet(inv: Inventory, m: nat, now: Time)
    requires m < |inv.merges| && inv.merges[m].source < |inv.listings|
    ensures QuietStep(inv, DoReverse(inv, m, now))
  {
  }

  lemma OtherStepIsQuiet(inv: Inventory, step: Step)
    requires ForeignKeys(inv) && !step.NormalizeStep?
    ensures QuietStep(inv, Apply(inv, step))
  {
    hide ForeignKeys, Disappearance.ProcessSourceRun, Admission.EvaluateRows, DoMerge, DoReverse, CloseIssues;
    match step {
      case MergeStep(source, target, actor, now) =>
        if CheckMerge(inv.listings, source, target, actor).None? { MergeIsQuiet(inv, source, target, now); }
      case VerdictStep(c, verdict, actor, now) =>
        if ResolveDuplicateCandidate(inv, c, verdict, actor, now).Success? && verdict.duplicate {
          MergeIsQuiet(inv, MergedAway(inv.candidates[c], verdict), Survivor(inv.candidates[c], verdict), now);
        }
      case ReverseStep(m, actor, now) =>
        if CheckReverse(inv.merges, m, actor).None? {
          ReverseKeepsKeys(inv, m, now);
          ReverseIsQuiet(inv, m, now);
        }
      case AdmitStep(rows, limit, now) =>
        if Admission.IsSelection(inv.listings, rows, limit) {
          AdmissionShape(inv, rows, now);
          AdmissionIsQuiet(inv, rows, now);
        }
      case DisappearStep(run, now) => DisappearanceIsQuiet(inv, run, now);
      case _ =>
    }
  }

  lemma QuietStepAgrees(inv: Inventory, r: Inventory)
    requires ForeignKeys(inv) && QuietStep(inv, r) && LogAgrees(inv)
    ensures LogAgrees(r)
  {
    hide Replay;
    assert forall e :: 0 <= e < |inv.events| ==> EventRefers(inv.events[e], inv);
    forall j: nat, key: FieldKey | j < |r.listings|
      ensures Replay(r.events, r.observations, j, key) == Some(FieldOf(r.listings[j], key))
    {
      QuietReplay(inv.events, r.events, r.observations, j, key);
      ReplayIgnoresLaterObservations(inv.events, inv.observations, r.observations, j, key);
      assert FieldOf(r.listings[j], key) == FieldOf(inv.listings[j], key);
    }
  }

  // ---------------------------------------------------------------- why in-order arrival suffices

  /** Some link of the observation's identity has been seen at least as late as the observation. */
  ghost predicate Backed(inv: Inventory, o: nat)
    requires o < |inv.observations|
  {
    exists k :: 0 <= k < |inv.links| && Matches(inv.links[k], inv.observations[o])
      && inv.links[k].lastSeenAt >= inv.observations[o].observedAt
  }

  /** Whatever an observation caused, its link's freshness remembers it. */
  ghost predicate LogBacked(inv: Inventory) {
    forall e :: 0 <= e < |inv.events| && inv.events[e].key.cause.ByObservation? ==>
      inv.events[e].key.cause.observation < |inv.observations| && Backed(inv, inv.events[e].key.cause.observation)
  }

  /** New events, all caused by observation `o`. */
  predicate CausedBy(before: seq<Event>, after: seq<Event>, o: nat) {
    && before <= after
    && (forall e :: |before| <= e < |after| ==> after[e].key.cause == ByObservation(o))
  }

  lemma BackedStays(inv: Inventory, r: Inventory, o: nat)
    requires o < |inv.observations| && Backed(inv, o)
    requires LinksAge(inv.links, r.links) && inv.observations <= r.observations
    ensures Backed(r, o)
  {
    var k :| 0 <= k < |inv.links| && Matches(inv.links[k], inv.observations[o])
      && inv.links[k].lastSeenAt >= inv.observations[o].observedAt;
    assert Matches(r.links[k], r.observations[o]);
  }

  lemma BackedLogStays(inv: Inventory, r: Inventory, o: nat)
    requires LogBacked(inv) && LinksAge(inv.links, r.links) && inv.observations <= r.observations
    requires CausedBy(inv.events, r.events, o)
    requires |inv.events| < |r.events| ==> o < |r.observations| && Backed(r, o)
    ensures LogBacked(r)
  {
    hide Backed;
    forall e | 0 <= e < |inv.events| && inv.events[e].key.cause.ByObservation?
      ensures Backed(r, inv.events[e].key.cause.observation)
    {
      BackedStays(inv, r, inv.events[e].key.cause.observation);
    }
  }

  lemma ApplyFieldsCause(inv: Inventory, i: nat, o: nat)
    requires i < |inv.listings| && o < |inv.observations|
    ensures CausedBy(inv.events, ApplyFields(inv, i, o).events, o)
  {
    hide ApplyField;
    var rent := ApplyField(inv, i, o, RentKey);
    ApplyFieldCauses(inv, i, o, RentKey);
    ApplyFieldCauses(rent, i, o, AvailabilityKey);
    ApplyFieldCauses(ApplyField(rent, i, o, AvailabilityKey), i, o, LaundryKey);
  }

  lemma ApplyFieldCauses(inv: Inventory, i: nat, o: nat, key: FieldKey)
    requires i < |inv.listings| && o < |inv.observations|
    ensures CausedBy(inv.events, ApplyField(inv, i, o, key).events, o)
  {
    hide HasKey, Proposed, FieldOf, RaiseConflict, Overridden;
  }

  lemma UpdateCauses(inv: Inventory, o: nat, k: nat, now: Time)
    requires ForeignKeys(inv) && o < |inv.observations| && k < |inv.links|
    ensures inv.links[k].listing < |inv.listings| && inv.links[k].latestObservation < |inv.observations|
    ensures CausedBy(inv.events, UpdateExisting(inv, o, k, now).after.events, o)
  {
    hide ApplyFields, RecordListingFacts, KindsSince, TouchLink;
    UpdateReads(inv, k);
    if Applies(inv, o, k) {
      var touched := Touch(inv, k, o);
      var recorded := touched.(facts :=
        RecordListingFacts(touched.facts, inv.links[k].listing, inv.observations[o], o, now));
      ApplyFieldsCause(recorded, inv.links[k].listing, o);
    }
  }

  lemma NormalizeKeepsBacked(inv: Inventory, o: nat, via: DiscoveryMethod, now: Time)
    requires ForeignKeys(inv) && LogBacked(inv)
    ensures LogBacked(Normalized(inv, o, via, now))
  {
    hide AddListing, UpdateExisting, PlacesGrow, PlacesRefer, Normalized, CaseOf, LogBacked, ForeignKeys, Emit,
      RecordListingFacts, FirstListing, MatchingLinks;
    NormalizedByCase(inv, o, via, now);
    var r := Normalized(inv, o, via, now);
    match CaseOf(inv, o)
    case Nothing =>
    case Attaching(places, listing, identity) =>
      BackedLogStays(inv, r, o);
    case Adding(places, building, unit) =>
      AddShape(inv.(places := places), o, building, unit, via, now);
      assert Matches(r.links[|inv.links|], inv.observations[o]);
      assert CausedBy(inv.events, r.events, o) by {
        CreationCauses(inv.events, |inv.listings|, o, inv.observations[o].observedAt);
      }
      BackedLogStays(inv, r, o);
    case Updating(k) =>
      UpdateShape(inv, o, k, now);
      UpdateCauses(inv, o, k, now);
      if inv.links[k].latestObservation != o {
        OnlyLinkMatches(inv, o, k);
        assert Matches(r.links[k], r.observations[o]);
        BackedLogStays(inv, r, o);
      }
  }

  lemma CreationCauses(events: seq<Event>, i: nat, o: nat, at: Time)
    ensures CausedBy(events, Emit(events, CreatedEvent(i, o, at)), o)
  {
  }

  lemma OnlyLinkMatches(inv: Inventory, o: nat, k: nat)
    requires o < |inv.observations| && MatchingLinks(inv.links, inv.observations[o]) == [k] && k < |inv.links|
    ensures forall j: nat :: j < |inv.links| && Matches(inv.links[j], inv.observations[o]) <==> j == k
  {
    var ids := MatchingLinks(inv.links, inv.observations[o]);
    assert ids[0] == k;
    forall j: nat | j < |inv.links| && Matches(inv.links[j], inv.observations[o]) ensures j == k {
      assert j in ids;
    }
  }

  /** The observation is its link's newest already, or strictly newer than everything seen through its link. */
  ghost predicate InOrder(inv: Inventory, step: Step)
    requires ForeignKeys(inv)
  {
    step.NormalizeStep? ==>
      var c := CaseOf(inv, step.observation);
      CaseIsSound(inv, step.observation);
      c.Updating? ==>
        || inv.links[c.link].latestObservation == step.observation
        || inv.observations[step.observation].observedAt > inv.links[c.link].lastSeenAt
  }

  ghost predicate RunInOrder(inv: Inventory, steps: seq<Step>)
    requires ForeignKeys(inv)
    decreases |steps|
  {
    steps == []
    || (ApplyKeepsKeys(inv, steps[0]); InOrder(inv, steps[0]) && RunInOrder(Apply(inv, steps[0]), steps[1..]))
  }

  lemma InOrderIsLogged(inv: Inventory, step: Step)
    requires ForeignKeys(inv) && LogBacked(inv) && step.NormalizeStep? && InOrder(inv, step)
    ensures !Unlogged(inv, step.observation)
  {
    hide CaseOf, Changes, ForeignKeys;
    var o := step.observation;
    CaseIsSound(inv, o);
    if CaseOf(inv, o).Updating? {
      var k := CaseOf(inv, o).link;
      UpdateReads(inv, k);
      OnlyLinkMatches(inv, o, k);
      assert Applies(inv, o, k) ==> !Backed(inv, o);
    }
  }

  ghost predicate LogSound(inv: Inventory) {
    LogAgrees(inv) && LogBacked(inv)
  }

  lemma StepKeepsLog(inv: Inventory, step: Step)
    requires ForeignKeys(inv) && LogSound(inv) && InOrder(inv, step)
    ensures LogSound(Apply(inv, step))
  {
    hide ForeignKeys, LogAgrees, LogBacked, QuietStep, Unlogged, Normalized, InOrder;
    if step.NormalizeStep? {
      InOrderIsLogged(inv, step);
      NormalizeAgreesIff(inv, step.observation, step.via, step.now);
      NormalizeKeepsBacked(inv, step.observation, step.via, step.now);
    } else {
      OtherStepIsQuiet(inv, step);
      QuietStepAgrees(inv, Apply(inv, step));
      QuietStepBacked(inv, Apply(inv, step));
    }
  }

  lemma QuietStepBacked(inv: Inventory, r: Inventory)
    requires QuietStep(inv, r) && LogBacked(inv)
    ensures LogBacked(r)
  {
    hide Backed;
    forall e | 0 <= e < |inv.events| && inv.events[e].key.cause.ByObservation?
      ensures Backed(r, inv.events[e].key.cause.observation)
    {
      BackedStays(inv, r, inv.events[e].key.cause.observation);
    }
  }

  /**
   * Event log agreement: over every run whose observations arrive in order per link, replay gives the current fields.
   */
  lemma {:induction false} RunKeepsLog(inv: Inventory, steps: seq<Step>)
    requires ForeignKeys(inv) && LogSound(inv) && RunInOrder(inv, steps)
    ensures LogSound(Run(inv, steps))
    decreases |steps|
  {
    hide LogSound, InOrder;
    if steps != [] {
      ApplyKeepsKeys(inv, steps[0]);
      StepKeepsLog(inv, steps[0]);
      RunKeepsLog(Apply(inv, steps[0]), steps[1..]);
    }
  }

  // ---------------------------------------------------------------- append-only

  lemma NormalizeOnlyAppends(inv: Inventory, o: nat, via: DiscoveryMethod, now: Time)
    requires ForeignKeys(inv)
    ensures inv.events <= Normalized(inv, o, via, now).events
  {
    hide AddListing, UpdateExisting, PlacesGrow, PlacesRefer, Normalized, CaseOf, MatchingLinks, HasKey;
    NormalizedByCase(inv, o, via, now);
    match CaseOf(inv, o)
    case Nothing =>
    case Attaching(places, listing, identity) =>
    case Adding(places, building, unit) => AddShape(inv.(places := places), o, building, unit, via, now);
    case Updating(k) => UpdateShape(inv, o, k, now);
  }

  /** Over every run of all services the event log is append-only. */
  lemma {:induction false} EventsOnlyGrow(inv: Inventory, steps: seq<Step>)
    requires ForeignKeys(inv)
    ensures inv.events <= Run(inv, steps).events
    decreases |steps|
  {
    hide ForeignKeys, Apply, QuietStep;
    if steps != [] {
      var step := steps[0];
      ApplyKeepsKeys(inv, step);
      if step.NormalizeStep? {
        NormalizeOnlyAppends(inv, step.observation, step.via, step.now);
        assert Apply(inv, step) == Normalized(inv, step.observation, step.via, step.now) by {
          NormalizeApplies(inv, step);
        }
      } else {
        OtherStepIsQuiet(inv, step);
        assert inv.events <= Apply(inv, step).events by { QuietAppends(inv, Apply(inv, step)); }
      }
      EventsOnlyGrow(Apply(inv, step), steps[1..]);
    }
  }

  lemma QuietAppends(inv: Inventory, r: Inventory)
    requires QuietStep(inv, r)
    ensures inv.events <= r.events
  {
  }

  /** Once two listings were merged, merging the same pair again, whatever happened in between, writes no event. */
  lemma RemergeWritesNoEvent(inv: Inventory, steps: seq<Step>, source: nat, target: nat, first: Time, again: Time)
    requires ForeignKeys(inv) && source < |inv.listings| && target < |inv.listings| && source != target
    ensures ForeignKeys(DoMerge(inv, source, target, first))
    ensures
      var later := Run(DoMerge(inv, source, target, first), steps);
      source < |later.listings| && target < |later.listings| ==>
        DoMerge(later, source, target, again).events == later.events
  {
    hide ForeignKeys, Relink, MovedLinks;
    MergeKeepsKeys(inv, source, target, first);
    var merged := DoMerge(inv, source, target, first);
    EventsOnlyGrow(merged, steps);
    var key := MergedEvent(source, target, first).key;
    assert HasKey(merged.events, key) by {
      if !HasKey(inv.events, key) {
        assert merged.events[|inv.events|].key == key;
      }
    }
    var e :| 0 <= e < |merged.events| && merged.events[e].key == key;
    assert Run(merged, steps).events[e].key == key;
  }
}
