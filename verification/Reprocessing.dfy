/** Processing an observation twice in a row: the second pass adds evidence at most, and exactly when it does. */
module Reprocessing {
  import opened Prelude
  import opened Schema
  import opened FactHistory
  import opened Normalization
  import opened Engine
  import opened Shapes
  import opened EventLog

  /** Nothing is left to do for the field: not stated, equal, or held by an override whose conflict is surfaced. */
  predicate Settled(inv: Inventory, i: nat, o: nat, key: FieldKey)
    requires i < |inv.listings| && o < |inv.observations|
  {
    var proposed := Proposed(inv.observations[o].parsed, key);
    var override := ActiveOverride(inv.facts.overrides, i, FactField(key));
    || proposed.None?
    || proposed.value == FieldOf(inv.listings[i], key)
    || (override.Some?
        && (override.value.value == proposed || !override.value.reviewOnConflict || Surfaced(inv.facts.issues, i, key)))
  }

  lemma SettledIsStable(inv: Inventory, i: nat, o: nat, key: FieldKey)
    requires i < |inv.listings| && o < |inv.observations| && Settled(inv, i, o, key)
    ensures ApplyField(inv, i, o, key) == inv
  {
    hide Surfaced, Overridden;
  }

  lemma ApplyFieldSettles(inv: Inventory, i: nat, o: nat, key: FieldKey)
    requires i < |inv.listings| && o < |inv.observations|
    ensures Settled(ApplyField(inv, i, o, key), i, o, key)
  {
    hide HasKey;
    var r := ApplyField(inv, i, o, key);
    ApplyFieldShape(inv, i, o, key);
    var proposed := Proposed(inv.observations[o].parsed, key);
    if proposed.Some? {
      AssignSetsOneField(inv.listings[i], inv.observations[o].parsed, key, key);
      if r.facts.issues != inv.facts.issues {
        assert OpenConflict(r.facts.issues[|inv.facts.issues|], i, key);
      }
    }
  }

  lemma SurfacedGrows(before: seq<Issue>, after: seq<Issue>, i: nat, key: FactKey)
    requires before <= after && Surfaced(before, i, key)
    ensures Surfaced(after, i, key)
  {
    var n :| 0 <= n < |before| && OpenConflict(before[n], i, key);
    assert OpenConflict(after[n], i, key);
  }

  lemma ApplyFieldIssuesGrow(inv: Inventory, i: nat, o: nat, key: FieldKey)
    requires i < |inv.listings| && o < |inv.observations|
    ensures inv.facts.issues <= ApplyField(inv, i, o, key).facts.issues
  {
    hide HasKey, Surfaced, Proposed, Overridden;
  }

  lemma SettledStays(inv: Inventory, i: nat, o: nat, key: FieldKey, other: FieldKey)
    requires i < |inv.listings| && o < |inv.observations| && key != other && Settled(inv, i, o, other)
    ensures Settled(ApplyField(inv, i, o, key), i, o, other)
  {
    hide HasKey, Overridden, Surfaced, RaiseConflict;
    var r := ApplyField(inv, i, o, key);
    ApplyFieldShape(inv, i, o, key);
    ApplyFieldIssuesGrow(inv, i, o, key);
    if Surfaced(inv.facts.issues, i, other) {
      SurfacedGrows(inv.facts.issues, r.facts.issues, i, other);
    }
    var proposed := Proposed(inv.observations[o].parsed, key);
    if proposed.Some? {
      AssignSetsOneField(inv.listings[i], inv.observations[o].parsed, key, other);
    }
  }

  ghost predicate AllSettled(inv: Inventory, i: nat, o: nat)
    requires i < |inv.listings| && o < |inv.observations|
  {
    Settled(inv, i, o, RentKey) && Settled(inv, i, o, AvailabilityKey) && Settled(inv, i, o, LaundryKey)
  }

  lemma ApplyFieldsSettle(inv: Inventory, i: nat, o: nat)
    requires i < |inv.listings| && o < |inv.observations|
    ensures AllSettled(ApplyFields(inv, i, o), i, o)
  {
    hide ApplyField, Settled;
    var rent := ApplyField(inv, i, o, RentKey);
    ApplyFieldSettles(inv, i, o, RentKey);
    var availability := ApplyField(rent, i, o, AvailabilityKey);
    ApplyFieldSettles(rent, i, o, AvailabilityKey);
    SettledStays(rent, i, o, AvailabilityKey, RentKey);
    ApplyFieldSettles(availability, i, o, LaundryKey);
    SettledStays(availability, i, o, LaundryKey, RentKey);
    SettledStays(availability, i, o, LaundryKey, AvailabilityKey);
  }

  lemma AllSettledIsStable(inv: Inventory, i: nat, o: nat)
    requires i < |inv.listings| && o < |inv.observations| && AllSettled(inv, i, o)
    ensures ApplyFields(inv, i, o) == inv
  {
    hide ApplyField, Settled;
    SettledIsStable(inv, i, o, RentKey);
    SettledIsStable(inv, i, o, AvailabilityKey);
    SettledIsStable(inv, i, o, LaundryKey);
  }

  /** Settling reads the fields, the overrides and the issues, nothing else. */
  lemma SettledReads(inv: Inventory, r: Inventory, i: nat, o: nat)
    requires i < |inv.listings| && o < |inv.observations| && AllSettled(inv, i, o)
    requires i < |r.listings| && r.observations == inv.observations && SameFields(inv.listings[i], r.listings[i])
    requires r.facts.overrides == inv.facts.overrides && r.facts.issues == inv.facts.issues
    ensures AllSettled(r, i, o)
  {
  }

  lemma FirstUpdateSettles(inv: Inventory, o: nat, k: nat, now: Time)
    requires ForeignKeys(inv) && o < |inv.observations| && k < |inv.links|
    requires inv.links[k].listing < |inv.listings| && inv.links[k].latestObservation < |inv.observations|
    requires Applies(inv, o, k)
    ensures |UpdateExisting(inv, o, k, now).after.listings| == |inv.listings|
    ensures UpdateExisting(inv, o, k, now).after.observations == inv.observations
    ensures AllSettled(UpdateExisting(inv, o, k, now).after, inv.links[k].listing, o)
  {
    hide ApplyFields, RecordListingFacts, KindsSince, TouchLink, AllSettled, ForeignKeys;
    var i := inv.links[k].listing;
    var row := inv.observations[o];
    var touched := Touch(inv, k, o);
    var recorded := touched.(facts := RecordListingFacts(touched.facts, i, row, o, now));
    var applied := ApplyFields(recorded, i, o);
    ApplyFieldsSettle(recorded, i, o);
    SettledReads(applied, StampChange(applied, i, row.observedAt, KindsSince(inv.events, applied.events)), i, o);
  }

  /** The observation states at least one fact worth recording. */
  predicate StatesSomething(parsed: Parsed) {
    || Proposed(parsed, RentKey).Some? || Proposed(parsed, LayoutKey).Some?
    || Proposed(parsed, LaundryKey).Some? || Proposed(parsed, AvailabilityKey).Some?
  }

  lemma RecordsIff(f: Facts, listing: nat, row: Observation, o: nat, now: Time)
    ensures RecordListingFacts(f, listing, row, o, now) == f <==> !StatesSomething(row.parsed)
  {
    hide Proposed, Record;
    var rent := RecordProposed(f, listing, RentKey, row, o, now);
    var layout := RecordProposed(rent, listing, LayoutKey, row, o, now);
    var laundry := RecordProposed(layout, listing, LaundryKey, row, o, now);
    RecordProposedGrows(f, listing, RentKey, row, o, now);
    RecordProposedGrows(rent, listing, LayoutKey, row, o, now);
    RecordProposedGrows(layout, listing, LaundryKey, row, o, now);
    RecordProposedGrows(laundry, listing, AvailabilityKey, row, o, now);
  }

  lemma RecordProposedGrows(f: Facts, listing: nat, key: FactKey, row: Observation, o: nat, now: Time)
    ensures |RecordProposed(f, listing, key, row, o, now).assertions|
         == |f.assertions| + if Proposed(row.parsed, key).Some? then 1 else 0
  {
    hide Proposed, Overridden, Supersede;
  }

  /** A second update by an observation that is not the newest: only evidence is added. */
  lemma SecondUpdateAddsEvidence(inv: Inventory, o: nat, k: nat, now: Time)
    requires ForeignKeys(inv) && o < |inv.observations| && k < |inv.links|
    requires inv.links[k].listing < |inv.listings| && inv.links[k].latestObservation < |inv.observations|
    requires Touch(inv, k, o) == inv
    requires Applies(inv, o, k) ==> AllSettled(inv, inv.links[k].listing, o)
    ensures
      var r := UpdateExisting(inv, o, k, now).after;
      && r == inv.(facts := r.facts) && r.facts.issues == inv.facts.issues
      && (r == inv <==> !(Applies(inv, o, k) && StatesSomething(inv.observations[o].parsed)))
  {
    hide ApplyFields, RecordListingFacts, TouchLink, AllSettled, ForeignKeys, Touch;
    var i := inv.links[k].listing;
    if Applies(inv, o, k) {
      var recorded := inv.(facts := RecordListingFacts(inv.facts, i, inv.observations[o], o, now));
      RecordShape(inv.facts, i, inv.observations[o], o, now);
      SettledReads(inv, recorded, i, o);
      AllSettledIsStable(recorded, i, o);
      assert KindsSince(inv.events, recorded.events) == [];
      RecordsIff(inv.facts, i, inv.observations[o], o, now);
    }
  }

  lemma {:induction false} MatchingLinksReadIdentity(before: seq<Link>, after: seq<Link>, row: Observation)
    requires |before| == |after|
    requires forall k :: 0 <= k < |before| ==> Matches(before[k], row) == Matches(after[k], row)
    ensures MatchingLinks(after, row) == MatchingLinks(before, row)
  {
    if before != [] {
      MatchingLinksReadIdentity(before[..|before| - 1], after[..|after| - 1], row);
    }
  }

  /** The identity lookup, and hence the case, of the second pass. */
  lemma CreatedLinkIsFound(links: seq<Link>, link: Link, row: Observation)
    requires MatchingLinks(links, row) == [] && Matches(link, row)
    ensures MatchingLinks(links + [link], row) == [|links|]
  {
    assert (links + [link])[..|links|] == links;
  }

  lemma UpdatedLinkIsFound(inv: Inventory, o: nat, k: nat, via: DiscoveryMethod, now: Time)
    requires ForeignKeys(inv) && CaseOf(inv, o) == Updating(k) && CaseSound(inv, o, Updating(k))
    ensures Usable(inv.observations[o])
    ensures MatchingLinks(UpdateExisting(inv, o, k, now).after.links, inv.observations[o]) == [k]
  {
    hide UpdateExisting, MatchingLinks;
    UpdateShape(inv, o, k, now);
    MatchingLinksReadIdentity(inv.links, UpdateExisting(inv, o, k, now).after.links, inv.observations[o]);
  }

  /**
   * The second pass adds evidence: the observation is older than its known link's freshness, differs in content from
   * the link's newest observation, and states some fact.
   */
  predicate AddsEvidenceAgain(inv: Inventory, o: nat)
    requires ForeignKeys(inv)
  {
    CaseIsSound(inv, o);
    match CaseOf(inv, o)
    case Updating(k) =>
      UpdateReads(inv, k);
      && inv.observations[o].observedAt < inv.links[k].lastSeenAt
      && Applies(inv, o, k) && StatesSomething(inv.observations[o].parsed)
    case _ => false
  }

  lemma AgainAfterCreation(
      inv: Inventory, o: nat, via: DiscoveryMethod, now: Time, viaAgain: DiscoveryMethod, later: Time)
    requires ForeignKeys(inv) && ForeignKeys(Normalized(inv, o, via, now))
    requires CaseOf(inv, o).Attaching? || CaseOf(inv, o).Adding?
    ensures Normalized(Normalized(inv, o, via, now), o, viaAgain, later) == Normalized(inv, o, via, now)
  {
    hide AddListing, PlacesGrow, PlacesRefer, CaseOf, ForeignKeys, MatchingLinks, RecordListingFacts,
      FirstListing, Emit;
    NormalizedByCase(inv, o, via, now);
    var a := Normalized(inv, o, via, now);
    var row := inv.observations[o];
    var n := |inv.links|;
    match CaseOf(inv, o)
    case Attaching(places, listing, identity) =>
      CreatedLinkIsFound(inv.links, a.links[n], row);
      assert Usable(row) by { CreatingIsUsable(inv, o); }
    case Adding(places, building, unit) =>
      AddShape(inv.(places := places), o, building, unit, via, now);
      CreatedLinkIsFound(inv.links, a.links[n], row);
      assert Usable(row) by { CreatingIsUsable(inv, o); }
  }

  lemma CreatingIsUsable(inv: Inventory, o: nat)
    requires !CaseOf(inv, o).Nothing?
    ensures o < |inv.observations| && Usable(inv.observations[o])
  {
  }

  lemma AgainAfterUpdate(
      inv: Inventory, o: nat, via: DiscoveryMethod, now: Time, viaAgain: DiscoveryMethod, later: Time)
    requires ForeignKeys(inv) && ForeignKeys(Normalized(inv, o, via, now)) && CaseOf(inv, o).Updating?
    ensures
      var once := Normalized(inv, o, via, now);
      var twice := Normalized(once, o, viaAgain, later);
      && twice == once.(facts := twice.facts) && twice.facts.issues == once.facts.issues
      && (twice == once <==> !AddsEvidenceAgain(inv, o))
  {
    hide StatesSomething, UpdateExisting, ForeignKeys, MatchingLinks, CaseOf, Applies, AllSettled, Normalized;
    NormalizedByCase(inv, o, via, now);
    var k := CaseOf(inv, o).link;
    CreatingIsUsable(inv, o);
    UpdateShape(inv, o, k, now);
    UpdatedLinkIsFound(inv, o, k, via, now);
    var once := Normalized(inv, o, via, now);
    UpdateReads(once, k);
    assert Normalized(once, o, viaAgain, later) == UpdateExisting(once, o, k, later).after by {
      FoundLinkIsUpdated(once, o, k, viaAgain, later);
    }
    UpdateReads(inv, k);
    if inv.links[k].latestObservation == o || inv.observations[o].observedAt >= inv.links[k].lastSeenAt {
      UpdateShape(once, o, k, later);
      AppliesIsNew(inv, o, k);
    } else {
      StaleAgain(inv, o, k, now, later);
    }
  }

  lemma FoundLinkIsUpdated(inv: Inventory, o: nat, k: nat, via: DiscoveryMethod, now: Time)
    requires ForeignKeys(inv) && o < |inv.observations| && Usable(inv.observations[o])
    requires k < |inv.links| && MatchingLinks(inv.links, inv.observations[o]) == [k]
    ensures inv.links[k].listing < |inv.listings| && inv.links[k].latestObservation < |inv.observations|
    ensures Normalized(inv, o, via, now) == UpdateExisting(inv, o, k, now).after
  {
    hide UpdateExisting, MatchingLinks;
  }

  lemma AppliesIsNew(inv: Inventory, o: nat, k: nat)
    requires o < |inv.observations| && k < |inv.links| && inv.links[k].latestObservation < |inv.observations|
    ensures Applies(inv, o, k) ==> inv.links[k].latestObservation != o
  {
  }

  /**
   * An observation older than its link's freshness leaves link and freshness in place, so the second
   * pass starts settled.
   */
  lemma StaleAgain(inv: Inventory, o: nat, k: nat, now: Time, later: Time)
    requires ForeignKeys(inv) && o < |inv.observations| && k < |inv.links|
    requires inv.links[k].listing < |inv.listings| && inv.links[k].latestObservation < |inv.observations|
    requires inv.links[k].latestObservation != o && inv.observations[o].observedAt < inv.links[k].lastSeenAt
    requires ForeignKeys(UpdateExisting(inv, o, k, now).after)
    ensures
      var once := UpdateExisting(inv, o, k, now).after;
      && k < |once.links| && once.links[k].listing < |once.listings|
      && once.links[k].latestObservation < |once.observations| && o < |once.observations|
      && var twice := UpdateExisting(once, o, k, later).after;
         && twice == once.(facts := twice.facts) && twice.facts.issues == once.facts.issues
         && (twice == once <==> !(Applies(inv, o, k) && StatesSomething(inv.observations[o].parsed)))
  {
    hide UpdateExisting, ForeignKeys, AllSettled, StatesSomething;
    UpdateShape(inv, o, k, now);
    var once := UpdateExisting(inv, o, k, now).after;
    assert once.links == inv.links;
    assert Touch(once, k, o) == once;
    if Applies(inv, o, k) {
      FirstUpdateSettles(inv, o, k, now);
    }
    SecondUpdateAddsEvidence(once, o, k, later);
  }

  lemma NormalizeKeepsOverrides(inv: Inventory, o: nat, via: DiscoveryMethod, now: Time)
    requires ForeignKeys(inv)
    ensures Normalized(inv, o, via, now).facts.overrides == inv.facts.overrides
  {
    hide AddListing, UpdateExisting, PlacesGrow, PlacesRefer, Normalized, CaseOf, MatchingLinks;
    NormalizedByCase(inv, o, via, now);
    match CaseOf(inv, o)
    case Nothing =>
    case Attaching(places, listing, identity) =>
    case Adding(places, building, unit) => AddShape(inv.(places := places), o, building, unit, via, now);
    case Updating(k) => UpdateShape(inv, o, k, now);
  }

  /**
   * Replay: listings, links, events, issues and every other table are after two passes what they are after one; the
   * second pass adds evidence if and only if the observation is older than its link's freshness, differs from the
   * link's newest content and states some fact, and otherwise changes nothing at all.
   */
  lemma ProcessingTwiceIsOnce(
      inv: Inventory, o: nat, via: DiscoveryMethod, now: Time, viaAgain: DiscoveryMethod, later: Time)
    requires ForeignKeys(inv)
    ensures ForeignKeys(Normalized(inv, o, via, now))
    ensures
      var once := Normalized(inv, o, via, now);
      var twice := Normalized(once, o, viaAgain, later);
      && twice == once.(facts := twice.facts)
      && twice.facts.issues == once.facts.issues && twice.facts.overrides == once.facts.overrides
      && (twice == once <==> !AddsEvidenceAgain(inv, o))
  {
    hide ForeignKeys, CaseOf, Normalized;
    NormalizedKeepsKeys(inv, o, via, now);
    NormalizeKeepsOverrides(Normalized(inv, o, via, now), o, viaAgain, later);
    NormalizedByCase(inv, o, via, now);
    match CaseOf(inv, o)
    case Nothing => NothingAgain(inv, o, viaAgain, later);
    case Attaching(_, _, _) => AgainAfterCreation(inv, o, via, now, viaAgain, later);
    case Adding(_, _, _) => AgainAfterCreation(inv, o, via, now, viaAgain, later);
    case Updating(_) => AgainAfterUpdate(inv, o, via, now, viaAgain, later);
  }

  lemma NothingAgain(inv: Inventory, o: nat, via: DiscoveryMethod, now: Time)
    requires ForeignKeys(inv) && CaseOf(inv, o).Nothing?
    ensures Normalized(inv, o, via, now) == inv
  {
    hide ForeignKeys, CaseOf, Normalized;
    NormalizedByCase(inv, o, via, now);
  }

  // ---------------------------------------------------------------- once more, at any moment

  /** Nothing but assertions and resolutions differs. */
  predicate OnlyEvidence(inv: Inventory, r: Inventory) {
    && r == inv.(facts := r.facts)
    && r.facts.issues == inv.facts.issues && r.facts.overrides == inv.facts.overrides
  }

  /** The link and its listing have been seen since, so the touch changes neither. */
  predicate SeenSince(inv: Inventory, o: nat, k: nat)
    requires o < |inv.observations| && k < |inv.links| && inv.links[k].listing < |inv.listings|
  {
    && inv.observations[o].observedAt < inv.links[k].lastSeenAt
    && inv.observations[o].observedAt <= inv.listings[inv.links[k].listing].lastSeenAt
  }

  /**
   * Processing the observation now is harmless: it cannot be processed, or its link points at it, or link and listing
   * were seen since and its content is that of the link's newest observation or leaves nothing to do for any field.
   */
  ghost predicate Harmless(inv: Inventory, o: nat)
    requires ForeignKeys(inv)
  {
    CaseIsSound(inv, o);
    match CaseOf(inv, o)
    case Nothing => true
    case Updating(k) =>
      UpdateReads(inv, k);
      || inv.links[k].latestObservation == o
      || (SeenSince(inv, o, k) && (Applies(inv, o, k) ==> AllSettled(inv, inv.links[k].listing, o)))
    case _ => false
  }

  /** Harmless or not, it has evidence to record. */
  predicate HasEvidence(inv: Inventory, o: nat)
    requires ForeignKeys(inv)
  {
    CaseIsSound(inv, o);
    match CaseOf(inv, o)
    case Updating(k) =>
      UpdateReads(inv, k);
      Applies(inv, o, k) && StatesSomething(inv.observations[o].parsed)
    case _ => false
  }

  lemma UpdateIsHarmlessIff(inv: Inventory, o: nat, k: nat, now: Time)
    requires ForeignKeys(inv) && o < |inv.observations| && k < |inv.links|
    requires inv.links[k].listing < |inv.listings| && inv.links[k].latestObservation < |inv.observations|
    ensures
      var r := UpdateExisting(inv, o, k, now).after;
      var harmless := inv.links[k].latestObservation == o
        || (SeenSince(inv, o, k) && (Applies(inv, o, k) ==> AllSettled(inv, inv.links[k].listing, o)));
      && (OnlyEvidence(inv, r) <==> harmless)
      && (r == inv <==> harmless && !(Applies(inv, o, k) && StatesSomething(inv.observations[o].parsed)))
  {
    hide ForeignKeys, AllSettled, StatesSomething, UpdateExisting;
    UpdateShape(inv, o, k, now);
    var i := inv.links[k].listing;
    var r := UpdateExisting(inv, o, k, now).after;
    if inv.links[k].latestObservation != o {
      if SeenSince(inv, o, k) {
        assert Touch(inv, k, o) == inv;
        if Applies(inv, o, k) && OnlyEvidence(inv, r) {
          FirstUpdateSettles(inv, o, k, now);
          SettledReads(r, inv, i, o);
        }
        if Applies(inv, o, k) ==> AllSettled(inv, i, o) {
          SecondUpdateAddsEvidence(inv, o, k, now);
        }
      }
    }
  }

  /** From any state, processing an observation adds evidence at most if and only if it is harmless. */
  lemma OnlyEvidenceIff(inv: Inventory, o: nat, via: DiscoveryMethod, now: Time)
    requires ForeignKeys(inv)
    ensures OnlyEvidence(inv, Normalized(inv, o, via, now)) <==> Harmless(inv, o)
    ensures Normalized(inv, o, via, now) == inv <==> Harmless(inv, o) && !HasEvidence(inv, o)
  {
    hide ForeignKeys, CaseOf, Normalized, AddListing, UpdateExisting, PlacesGrow, PlacesRefer, MatchingLinks,
      AllSettled, StatesSomething, Applies, SeenSince, RecordListingFacts, Emit, FirstListing;
    NormalizedByCase(inv, o, via, now);
    match CaseOf(inv, o)
    case Nothing =>
    case Attaching(places, listing, identity) =>
      assert |Normalized(inv, o, via, now).links| > |inv.links|;
    case Adding(places, building, unit) =>
      AddShape(inv.(places := places), o, building, unit, via, now);
      assert |Normalized(inv, o, via, now).links| > |inv.links|;
    case Updating(k) =>
      UpdateReads(inv, k);
      UpdateIsHarmlessIff(inv, o, k, now);
  }

  /** Right after it was processed an observation is harmless. */
  lemma HarmlessOnceProcessed(inv: Inventory, o: nat, via: DiscoveryMethod, now: Time)
    requires ForeignKeys(inv)
    ensures ForeignKeys(Normalized(inv, o, via, now)) && Harmless(Normalized(inv, o, via, now), o)
  {
    hide ForeignKeys, Normalized, Harmless, AddsEvidenceAgain;
    ProcessingTwiceIsOnce(inv, o, via, now, via, now);
    OnlyEvidenceIff(Normalized(inv, o, via, now), o, via, now);
  }
}
