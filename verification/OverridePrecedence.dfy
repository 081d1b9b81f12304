/** Facts over whole runs: one current resolution, full history, and human overrides that no evidence outranks. */
module OverridePrecedence {
  import opened Prelude
  import opened Schema
  import opened FactHistory
  import opened Normalization
  import opened MergeService
  import opened Engine
  import opened Shapes
  import opened EventLog
  import Disappearance
  import Admission

  // ---------------------------------------------------------------- soundness of the fact tables

  /** Issues that are no conflicts, and conflicts that were only closed, keep the fact tables sound. */
  predicate IssuesQuiet(before: seq<Issue>, after: seq<Issue>) {
    && |before| <= |after|
    && (forall i :: 0 <= i < |before| ==>
          after[i].kind == before[i].kind && after[i].entity == before[i].entity
          && (after[i].status == IssueStatus.Open ==> before[i].status == IssueStatus.Open))
    && (forall i :: |before| <= i < |after| ==> !after[i].kind.Conflict?)
  }

  lemma QuietIssuesKeepFacts(f: Facts, issues: seq<Issue>)
    requires FactsSound(f) && IssuesQuiet(f.issues, issues)
    ensures FactsSound(f.(issues := issues))
  {
    var g := f.(issues := issues);
    EvidenceReads(f, g);
    forall a, b, entity, key | 0 <= a < b < |g.issues| && OpenConflict(g.issues[a], entity, key)
      ensures !OpenConflict(g.issues[b], entity, key)
    {
      if b < |f.issues| {
        assert OpenConflict(f.issues[a], entity, key);
      }
    }
  }

  lemma EvidenceReads(f: Facts, g: Facts)
    requires FollowsEvidence(f) && g.assertions == f.assertions && g.resolutions == f.resolutions
    requires forall entity: nat, key: FactKey :: NeverOverridden(g, entity, key) ==> NeverOverridden(f, entity, key)
    ensures FollowsEvidence(g)
  {
    forall a: nat | IsNewest(g, a) && NeverOverridden(g, g.assertions[a].entity, g.assertions[a].key)
      ensures Effective(g, a)
    {
      assert IsNewest(f, a) && Effective(f, a);
    }
  }

  lemma RecordListingFactsKeeps(f: Facts, listing: nat, row: Observation, o: nat, now: Time)
    requires FactsSound(f)
    ensures FactsSound(RecordListingFacts(f, listing, row, o, now))
    ensures Retains(f, RecordListingFacts(f, listing, row, o, now))
  {
    hide FactsSound, Record, Proposed;
    var rent := RecordProposed(f, listing, RentKey, row, o, now);
    RecordProposedKeeps(f, listing, RentKey, row, o, now);
    var layout := RecordProposed(rent, listing, LayoutKey, row, o, now);
    RecordProposedKeeps(rent, listing, LayoutKey, row, o, now);
    var laundry := RecordProposed(layout, listing, LaundryKey, row, o, now);
    RecordProposedKeeps(layout, listing, LaundryKey, row, o, now);
    RecordProposedKeeps(laundry, listing, AvailabilityKey, row, o, now);
    RetainsThen(f, rent, layout);
    RetainsThen(f, layout, laundry);
    RetainsThen(f, laundry, RecordListingFacts(f, listing, row, o, now));
  }

  lemma RecordProposedKeeps(f: Facts, listing: nat, key: FactKey, row: Observation, o: nat, now: Time)
    requires FactsSound(f)
    ensures FactsSound(RecordProposed(f, listing, key, row, o, now))
    ensures Retains(f, RecordProposed(f, listing, key, row, o, now))
  {
    hide FactsSound, Record;
    if Proposed(row.parsed, key).Some? {
      RecordKeeps(f, Assertion(listing, key, Proposed(row.parsed, key).value, ValueStatus.Asserted, o), now);
    }
  }

  lemma RetainsThen(f: Facts, g: Facts, h: Facts)
    requires Retains(f, g) && Retains(g, h)
    ensures Retains(f, h)
  {
  }

  lemma ApplyFieldKeepsFacts(inv: Inventory, i: nat, o: nat, key: FieldKey)
    requires i < |inv.listings| && o < |inv.observations| && FactsSound(inv.facts)
    ensures FactsSound(ApplyField(inv, i, o, key).facts)
    ensures ApplyField(inv, i, o, key).facts.assertions == inv.facts.assertions
    ensures ApplyField(inv, i, o, key).facts.resolutions == inv.facts.resolutions
    ensures inv.facts.issues <= ApplyField(inv, i, o, key).facts.issues
  {
    hide FactsSound, HasKey, FieldOf, Overridden, Surfaced;
    var proposed := Proposed(inv.observations[o].parsed, key);
    var override := ActiveOverride(inv.facts.overrides, i, FactField(key));
    if proposed.Some? && override.Some? {
      RaiseConflictKeeps(inv.facts, override.value, i, key, proposed.value);
    }
  }

  lemma ApplyFieldsKeepFacts(inv: Inventory, i: nat, o: nat)
    requires i < |inv.listings| && o < |inv.observations| && FactsSound(inv.facts)
    ensures FactsSound(ApplyFields(inv, i, o).facts)
    ensures ApplyFields(inv, i, o).facts.assertions == inv.facts.assertions
    ensures ApplyFields(inv, i, o).facts.resolutions == inv.facts.resolutions
    ensures inv.facts.issues <= ApplyFields(inv, i, o).facts.issues
  {
    hide ApplyField, FactsSound;
    var rent := ApplyField(inv, i, o, RentKey);
    ApplyFieldKeepsFacts(inv, i, o, RentKey);
    ApplyFieldKeepsFacts(rent, i, o, AvailabilityKey);
    ApplyFieldKeepsFacts(ApplyField(rent, i, o, AvailabilityKey), i, o, LaundryKey);
  }

  lemma {:induction false} ProposalsAreNoConflicts(inv: Inventory, building: nat, listing: nat, upTo: nat)
    requires listing < |inv.listings| && upTo <= |inv.listings|
    ensures IssuesQuiet(inv.facts.issues, ProposeDuplicates(inv, building, listing, upTo).facts.issues)
  {
    if upTo > 0 {
      ProposalsAreNoConflicts(inv, building, listing, upTo - 1);
    }
  }

  lemma AddKeepsFacts(inv: Inventory, o: nat, building: nat, unit: Option<nat>, via: DiscoveryMethod, now: Time)
    requires o < |inv.observations| && FactsSound(inv.facts)
    ensures FactsSound(AddListing(inv, o, building, unit, via, now).after.facts)
    ensures Retains(inv.facts, AddListing(inv, o, building, unit, via, now).after.facts)
  {
    hide RecordListingFacts, FactsSound, IssuesQuiet, ProposeDuplicates, Emit;
    RecordListingFactsKeeps(inv.facts, |inv.listings|, inv.observations[o], o, now);
    var inserted := InsertListing(inv, o, building, unit, via, now);
    var r := GenerateDuplicateCandidates(inserted, building, |inv.listings|);
    ProposalsAreNoConflicts(inserted, building, |inv.listings|, |inserted.listings|);
    if r != inserted {
      QuietIssuesKeepFacts(inserted.facts, r.facts.issues);
    }
  }

  lemma UpdateKeepsFacts(inv: Inventory, o: nat, k: nat, now: Time)
    requires ForeignKeys(inv) && o < |inv.observations| && k < |inv.links| && FactsSound(inv.facts)
    ensures inv.links[k].listing < |inv.listings| && inv.links[k].latestObservation < |inv.observations|
    ensures FactsSound(UpdateExisting(inv, o, k, now).after.facts)
    ensures Retains(inv.facts, UpdateExisting(inv, o, k, now).after.facts)
  {
    hide ApplyFields, RecordListingFacts, KindsSince, TouchLink, FactsSound, ForeignKeys;
    UpdateReads(inv, k);
    if Applies(inv, o, k) {
      var i := inv.links[k].listing;
      var touched := Touch(inv, k, o);
      RecordListingFactsKeeps(inv.facts, i, inv.observations[o], o, now);
      ApplyFieldsKeepFacts(touched.(facts := RecordListingFacts(touched.facts, i, inv.observations[o], o, now)), i, o);
    }
  }

  lemma NormalizeKeepsFacts(inv: Inventory, o: nat, via: DiscoveryMethod, now: Time)
    requires ForeignKeys(inv) && FactsSound(inv.facts)
    ensures FactsSound(Normalized(inv, o, via, now).facts)
    ensures Retains(inv.facts, Normalized(inv, o, via, now).facts)
  {
    hide AddListing, UpdateExisting, PlacesGrow, PlacesRefer, Normalized, CaseOf, MatchingLinks,
      FactsSound, ForeignKeys;
    NormalizedByCase(inv, o, via, now);
    match CaseOf(inv, o)
    case Nothing =>
    case Attaching(_, _, _) =>
    case Adding(places, building, unit) => AddKeepsFacts(inv.(places := places), o, building, unit, via, now);
    case Updating(k) => UpdateKeepsFacts(inv, o, k, now);
  }

  lemma AddOverrideKeepsFacts(f: Facts, override: Override)
    requires FactsSound(f)
    ensures FactsSound(AddOverride(f, override))
  {
    var g := AddOverride(f, override);
    forall entity: nat, key: FactKey | NeverOverridden(g, entity, key) ensures NeverOverridden(f, entity, key) {
      assert forall n :: 0 <= n < |f.overrides| ==> g.overrides[n] == f.overrides[n];
    }
    EvidenceReads(f, g);
  }

  lemma EndOverrideKeepsFacts(f: Facts, o: nat, status: OverrideStatus)
    requires FactsSound(f)
    ensures FactsSound(EndOverride(f, o, status))
  {
    var g := EndOverride(f, o, status);
    forall entity: nat, key: FactKey | NeverOverridden(g, entity, key) ensures NeverOverridden(f, entity, key) {
      assert forall n :: 0 <= n < |f.overrides| ==>
          g.overrides[n].entity == f.overrides[n].entity && g.overrides[n].field == f.overrides[n].field;
    }
    EvidenceReads(f, g);
    forall a, b, entity, field | 0 <= a < b < |g.overrides| && Governs(g.overrides[a], entity, field)
      ensures !Governs(g.overrides[b], entity, field)
    {
      assert Governs(f.overrides[a], entity, field);
    }
  }

  lemma TriageKeepsFacts(f: Facts, i: nat, status: IssueStatus)
    requires FactsSound(f)
    ensures FactsSound(Triage(f, i, status))
  {
    QuietIssuesKeepFacts(f, Triage(f, i, status).issues);
  }

  lemma DisappearanceKeepsFacts(inv: Inventory, run: nat, now: Time)
    requires FactsSound(inv.facts)
    ensures FactsSound(Disappearance.ProcessSourceRun(inv, run, now).facts)
    ensures Retains(inv.facts, Disappearance.ProcessSourceRun(inv, run, now).facts)
  {
    hide Disappearance.Sweep, Disappearance.InactivateAll, Disappearance.EligibleUpTo, Disappearance.Trips, FactsSound;
    DisappearanceShape(inv, run, now);
    var issues := Disappearance.ProcessSourceRun(inv, run, now).facts.issues;
    assert IssuesQuiet(inv.facts.issues, issues);
    QuietIssuesKeepFacts(inv.facts, issues);
  }

  lemma VerdictKeepsFacts(inv: Inventory, c: nat, verdict: Verdict, actor: Actor, now: Time)
    requires FactsSound(inv.facts) && ResolveDuplicateCandidate(inv, c, verdict, actor, now).Success?
    ensures FactsSound(ResolveDuplicateCandidate(inv, c, verdict, actor, now).value.facts)
    ensures Retains(inv.facts, ResolveDuplicateCandidate(inv, c, verdict, actor, now).value.facts)
  {
    hide FactsSound, Emit, Relink, MovedLinks;
    assert IssuesQuiet(inv.facts.issues, CloseIssues(inv.facts.issues, c));
    QuietIssuesKeepFacts(inv.facts, CloseIssues(inv.facts.issues, c));
  }

  lemma StepKeepsFacts(inv: Inventory, step: Step)
    requires ForeignKeys(inv) && FactsSound(inv.facts)
    ensures FactsSound(Apply(inv, step).facts) && Retains(inv.facts, Apply(inv, step).facts)
  {
    hide ForeignKeys, FactsSound, Normalized, Disappearance.ProcessSourceRun, Admission.EvaluateRows, Overridden, Emit,
      Relink, MovedLinks, MoveBack, ResolveDuplicateCandidate;
    match step {
      case NormalizeStep(o, via, now) => NormalizeKeepsFacts(inv, o, via, now);
      case DisappearStep(run, now) => DisappearanceKeepsFacts(inv, run, now);
      case VerdictStep(c, verdict, actor, now) =>
        if ResolveDuplicateCandidate(inv, c, verdict, actor, now).Success? {
          VerdictKeepsFacts(inv, c, verdict, actor, now);
        }
      case ReverseStep(m, actor, now) =>
        if CheckReverse(inv.merges, m, actor).None? { ReverseKeepsKeys(inv, m, now); }
      case OverrideStep(override) => AddOverrideKeepsFacts(inv.facts, override);
      case EndOverrideStep(o, status) => EndOverrideKeepsFacts(inv.facts, o, status);
      case TriageStep(i, status) => TriageKeepsFacts(inv.facts, i, status);
      case _ =>
    }
  }

  /**
   * Over every run: one current resolution per fact, the newest evidence unless overridden, one open
   * conflict, no deletion.
   */
  lemma {:induction false} RunKeepsFacts(inv: Inventory, steps: seq<Step>)
    requires ForeignKeys(inv) && FactsSound(inv.facts)
    ensures FactsSound(Run(inv, steps).facts) && Retains(inv.facts, Run(inv, steps).facts)
    decreases |steps|
  {
    hide FactsSound;
    if steps != [] {
      ApplyKeepsKeys(inv, steps[0]);
      StepKeepsFacts(inv, steps[0]);
      RunKeepsFacts(Apply(inv, steps[0]), steps[1..]);
      RetainsThen(inv.facts, Apply(inv, steps[0]).facts, Run(inv, steps).facts);
    }
  }

  // ---------------------------------------------------------------- precedence

  predicate OfFact(r: Resolution, entity: nat, key: FactKey) {
    r.entity == entity && r.key == key
  }

  /** Every resolution of the fact is as it was, and none was added. */
  ghost predicate Frozen(f: Facts, g: Facts, entity: nat, key: FactKey) {
    && |f.resolutions| <= |g.resolutions|
    && (forall r :: 0 <= r < |f.resolutions| && OfFact(f.resolutions[r], entity, key) ==>
          g.resolutions[r] == f.resolutions[r])
    && (forall r :: 0 <= r < |f.resolutions| && !OfFact(f.resolutions[r], entity, key) ==>
          !OfFact(g.resolutions[r], entity, key))
    && (forall r :: |f.resolutions| <= r < |g.resolutions| ==> !OfFact(g.resolutions[r], entity, key))
  }

  lemma FrozenThen(f: Facts, g: Facts, h: Facts, entity: nat, key: FactKey)
    requires Frozen(f, g, entity, key) && Frozen(g, h, entity, key)
    ensures Frozen(f, h, entity, key)
  {
  }

  lemma RecordProposedFreezes(
      f: Facts, listing: nat, recorded: FactKey, row: Observation, o: nat, now: Time, entity: nat, key: FactKey)
    requires Overridden(f.overrides, entity, FactField(key))
    ensures Frozen(f, RecordProposed(f, listing, recorded, row, o, now), entity, key)
    ensures RecordProposed(f, listing, recorded, row, o, now).overrides == f.overrides
  {
    hide Proposed, Overridden;
  }

  lemma RecordListingFactsFreezes(
      f: Facts, listing: nat, row: Observation, o: nat, now: Time, entity: nat, key: FactKey)
    requires Overridden(f.overrides, entity, FactField(key))
    ensures Frozen(f, RecordListingFacts(f, listing, row, o, now), entity, key)
  {
    hide RecordProposed, Overridden, Frozen;
    var rent := RecordProposed(f, listing, RentKey, row, o, now);
    RecordProposedFreezes(f, listing, RentKey, row, o, now, entity, key);
    var layout := RecordProposed(rent, listing, LayoutKey, row, o, now);
    RecordProposedFreezes(rent, listing, LayoutKey, row, o, now, entity, key);
    var laundry := RecordProposed(layout, listing, LaundryKey, row, o, now);
    RecordProposedFreezes(layout, listing, LaundryKey, row, o, now, entity, key);
    RecordProposedFreezes(laundry, listing, AvailabilityKey, row, o, now, entity, key);
    FrozenThen(f, rent, layout, entity, key);
    FrozenThen(f, layout, laundry, entity, key);
    FrozenThen(f, laundry, RecordListingFacts(f, listing, row, o, now), entity, key);
  }

  /** The field and its resolutions are untouched between two states. */
  ghost predicate Holds(inv: Inventory, r: Inventory, i: nat, key: FieldKey) {
    && i < |inv.listings| <= |r.listings|
    && FieldOf(r.listings[i], key) == FieldOf(inv.listings[i], key)
    && Frozen(inv.facts, r.facts, i, key)
  }

  lemma ApplyFieldHolds(inv: Inventory, i: nat, o: nat, key: FieldKey, j: nat, held: FieldKey)
    requires i < |inv.listings| && o < |inv.observations| && j < |inv.listings|
    requires Overridden(inv.facts.overrides, j, FactField(held))
    ensures Holds(inv, ApplyField(inv, i, o, key), j, held)
  {
    hide HasKey, Surfaced, Overridden;
    if Changes(inv, i, o, key) {
      AssignSetsOneField(inv.listings[i], inv.observations[o].parsed, key, held);
    }
  }

  lemma HoldsThen(x: Inventory, y: Inventory, z: Inventory, i: nat, key: FieldKey)
    requires Holds(x, y, i, key) && Holds(y, z, i, key)
    ensures Holds(x, z, i, key)
  {
    FrozenThen(x.facts, y.facts, z.facts, i, key);
  }

  lemma ApplyFieldsHold(inv: Inventory, i: nat, o: nat, j: nat, held: FieldKey)
    requires i < |inv.listings| && o < |inv.observations| && j < |inv.listings|
    requires Overridden(inv.facts.overrides, j, FactField(held))
    ensures Holds(inv, ApplyFields(inv, i, o), j, held)
  {
    hide ApplyField, Overridden, Holds;
    var rent := ApplyField(inv, i, o, RentKey);
    ApplyFieldShape(inv, i, o, RentKey);
    ApplyFieldHolds(inv, i, o, RentKey, j, held);
    var availability := ApplyField(rent, i, o, AvailabilityKey);
    ApplyFieldShape(rent, i, o, AvailabilityKey);
    ApplyFieldHolds(rent, i, o, AvailabilityKey, j, held);
    var laundry := ApplyField(availability, i, o, LaundryKey);
    ApplyFieldHolds(availability, i, o, LaundryKey, j, held);
    HoldsThen(inv, rent, availability, j, held);
    HoldsThen(inv, availability, laundry, j, held);
  }

  lemma UpdateHolds(inv: Inventory, o: nat, k: nat, now: Time, j: nat, held: FieldKey)
    requires ForeignKeys(inv) && o < |inv.observations| && k < |inv.links| && j < |inv.listings|
    requires Overridden(inv.facts.overrides, j, FactField(held))
    ensures inv.links[k].listing < |inv.listings| && inv.links[k].latestObservation < |inv.observations|
    ensures Holds(inv, UpdateExisting(inv, o, k, now).after, j, held)
  {
    hide ApplyFields, RecordListingFacts, KindsSince, TouchLink, ForeignKeys, Overridden;
    UpdateReads(inv, k);
    if Applies(inv, o, k) {
      var i := inv.links[k].listing;
      var touched := Touch(inv, k, o);
      var recorded := touched.(facts := RecordListingFacts(touched.facts, i, inv.observations[o], o, now));
      RecordListingFactsFreezes(inv.facts, i, inv.observations[o], o, now, j, held);
      RecordShape(inv.facts, i, inv.observations[o], o, now);
      ApplyFieldsHold(recorded, i, o, j, held);
      HoldsThen(inv, recorded, ApplyFields(recorded, i, o), j, held);
    }
  }

  lemma NormalizeHolds(inv: Inventory, o: nat, via: DiscoveryMethod, now: Time, j: nat, held: FieldKey)
    requires ForeignKeys(inv) && j < |inv.listings|
    requires Overridden(inv.facts.overrides, j, FactField(held))
    ensures Holds(inv, Normalized(inv, o, via, now), j, held)
    ensures Normalized(inv, o, via, now).facts.overrides == inv.facts.overrides
  {
    hide AddListing, UpdateExisting, PlacesGrow, PlacesRefer, Normalized, CaseOf, MatchingLinks, ForeignKeys,
      Overridden, RecordListingFacts, Emit;
    NormalizedByCase(inv, o, via, now);
    match CaseOf(inv, o)
    case Nothing =>
    case Attaching(_, _, _) =>
    case Adding(places, building, unit) =>
      AddShape(inv.(places := places), o, building, unit, via, now);
      RecordListingFactsFreezes(inv.facts, |inv.listings|, inv.observations[o], o, now, j, held);
    case Updating(k) =>
      UpdateShape(inv, o, k, now);
      UpdateHolds(inv, o, k, now, j, held);
  }

  /** Override row `n` governs the field and no step of the run ends it. */
  ghost predicate Kept(steps: seq<Step>, n: nat) {
    forall s :: 0 <= s < |steps| && steps[s].EndOverrideStep? ==> steps[s].ended != n
  }

  ghost predicate GovernedBy(inv: Inventory, n: nat, i: nat, key: FieldKey) {
    n < |inv.facts.overrides| && Governs(inv.facts.overrides[n], i, FactField(key))
  }

  lemma MoverHolds(inv: Inventory, step: Step, i: nat, key: FieldKey)
    requires ForeignKeys(inv) && i < |inv.listings| && (step.MergeStep? || step.ReverseStep?)
    ensures Holds(inv, Apply(inv, step), i, key) && Apply(inv, step).facts == inv.facts
  {
    hide ForeignKeys, Emit, Relink, MovedLinks, MoveBack;
    if step.ReverseStep? && CheckReverse(inv.merges, step.merge, step.actor).None? {
      ReverseKeepsKeys(inv, step.merge, step.now);
    }
  }

  lemma VerdictHolds(inv: Inventory, c: nat, verdict: Verdict, actor: Actor, now: Time, i: nat, key: FieldKey)
    requires i < |inv.listings| && ResolveDuplicateCandidate(inv, c, verdict, actor, now).Success?
    ensures
      var r := ResolveDuplicateCandidate(inv, c, verdict, actor, now).value;
      Holds(inv, r, i, key) && r.facts.overrides == inv.facts.overrides
  {
    hide Emit, Relink, MovedLinks, CloseIssues;
  }

  lemma BatchHolds(inv: Inventory, step: Step, i: nat, key: FieldKey)
    requires ForeignKeys(inv) && i < |inv.listings| && (step.DisappearStep? || step.AdmitStep?)
    ensures Holds(inv, Apply(inv, step), i, key) && Apply(inv, step).facts.overrides == inv.facts.overrides
  {
    hide ForeignKeys, Disappearance.ProcessSourceRun, Admission.EvaluateRows;
    if step.DisappearStep? {
      DisappearanceShape(inv, step.run, step.now);
    } else if Admission.IsSelection(inv.listings, step.rows, step.limit) {
      AdmissionShape(inv, step.rows, step.now);
    }
  }

  lemma StepHolds(inv: Inventory, step: Step, n: nat, i: nat, key: FieldKey)
    requires ForeignKeys(inv) && i < |inv.listings| && GovernedBy(inv, n, i, key)
    requires step.EndOverrideStep? ==> step.ended != n
    ensures Holds(inv, Apply(inv, step), i, key) && GovernedBy(Apply(inv, step), n, i, key)
  {
    hide ForeignKeys, Normalized, Disappearance.ProcessSourceRun, Admission.EvaluateRows, MergeListings,
      ReverseMerge, ResolveDuplicateCandidate;
    assert Overridden(inv.facts.overrides, i, FactField(key));
    match step {
      case NormalizeStep(o, via, now) => NormalizeHolds(inv, o, via, now, i, key);
      case DisappearStep(_, _) => BatchHolds(inv, step, i, key);
      case AdmitStep(_, _, _) => BatchHolds(inv, step, i, key);
      case MergeStep(_, _, _, _) => MoverHolds(inv, step, i, key);
      case ReverseStep(_, _, _) => MoverHolds(inv, step, i, key);
      case VerdictStep(c, verdict, actor, now) =>
        if ResolveDuplicateCandidate(inv, c, verdict, actor, now).Success? {
          VerdictHolds(inv, c, verdict, actor, now, i, key);
        }
      case _ =>
    }
  }

  /** Override precedence: as long as the override stands, no run changes the field or any resolution of its fact. */
  lemma {:induction false} OverrideOutranksEveryRun(inv: Inventory, steps: seq<Step>, n: nat, i: nat, key: FieldKey)
    requires ForeignKeys(inv) && i < |inv.listings| && GovernedBy(inv, n, i, key) && Kept(steps, n)
    ensures Holds(inv, Run(inv, steps), i, key) && GovernedBy(Run(inv, steps), n, i, key)
    decreases |steps|
  {
    hide ForeignKeys, Apply;
    if steps != [] {
      ApplyKeepsKeys(inv, steps[0]);
      StepHolds(inv, steps[0], n, i, key);
      OverrideOutranksEveryRun(Apply(inv, steps[0]), steps[1..], n, i, key);
      HoldsThen(inv, Apply(inv, steps[0]), Run(inv, steps), i, key);
    }
  }
}
