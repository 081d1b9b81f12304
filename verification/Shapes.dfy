/** What each transaction touches and what it leaves alone, stated once for all the invariant proofs. */
module Shapes {
  import opened Prelude
  import opened Schema
  import opened FactHistory
  import opened Normalization
  import opened Engine
  import Disappearance
  import Admission

  /** Everything about a listing except its three mutable fields, its badge and its two freshness stamps. */
  predicate SameIdentity(a: Listing, b: Listing) {
    && a.building == b.building && a.unit == b.unit && a.layout == b.layout
    && a.lifecycle == b.lifecycle && a.resolution == b.resolution
    && a.firstSeenAt == b.firstSeenAt && a.inactiveAt == b.inactiveAt
  }

  predicate TouchesOnly(before: seq<Listing>, after: seq<Listing>, i: nat) {
    && |after| == |before| && i < |before|
    && (forall j :: 0 <= j < |before| && j != i ==> after[j] == before[j])
    && SameIdentity(before[i], after[i])
  }

  lemma ApplyFieldShape(inv: Inventory, i: nat, o: nat, key: FactKey)
    requires i < |inv.listings| && o < |inv.observations| && key != LayoutKey
    ensures TouchesOnly(inv.listings, ApplyField(inv, i, o, key).listings, i)
    ensures ApplyField(inv, i, o, key).listings[i].lastSeenAt == inv.listings[i].lastSeenAt
    ensures ApplyField(inv, i, o, key).facts.overrides == inv.facts.overrides
  {
    hide Proposed, FieldOf, Emit, Overridden;
  }

  lemma ApplyFieldsShape(inv: Inventory, i: nat, o: nat)
    requires i < |inv.listings| && o < |inv.observations|
    ensures TouchesOnly(inv.listings, ApplyFields(inv, i, o).listings, i)
    ensures ApplyFields(inv, i, o).listings[i].lastSeenAt == inv.listings[i].lastSeenAt
    ensures ApplyFields(inv, i, o).facts.overrides == inv.facts.overrides
  {
    hide ApplyField;
    var rent := ApplyField(inv, i, o, RentKey);
    ApplyFieldShape(inv, i, o, RentKey);
    var availability := ApplyField(rent, i, o, AvailabilityKey);
    ApplyFieldShape(rent, i, o, AvailabilityKey);
    ApplyFieldShape(availability, i, o, LaundryKey);
  }

  lemma RecordShape(f: Facts, listing: nat, row: Observation, o: nat, now: Time)
    ensures RecordListingFacts(f, listing, row, o, now).overrides == f.overrides
    ensures RecordListingFacts(f, listing, row, o, now).issues == f.issues
  {
    hide Supersede, Overridden, Proposed;
  }

  /** The tables an update of a known link leaves alone, and the one link and one listing it touches. */
  lemma UpdateShape(inv: Inventory, o: nat, k: nat, now: Time)
    requires ForeignKeys(inv) && o < |inv.observations| && k < |inv.links|
    ensures inv.links[k].listing < |inv.listings| && inv.links[k].latestObservation < |inv.observations|
    ensures
      var r := UpdateExisting(inv, o, k, now).after;
      && r == inv.(links := r.links, listings := r.listings, events := r.events, facts := r.facts)
      && inv.events <= r.events && r.facts.overrides == inv.facts.overrides
      && TouchesOnly(inv.listings, r.listings, inv.links[k].listing)
    ensures inv.links[k].latestObservation == o ==> UpdateExisting(inv, o, k, now).after == inv
    ensures inv.links[k].latestObservation != o ==>
      var r := UpdateExisting(inv, o, k, now).after;
      var i := inv.links[k].listing;
      && r.links == inv.links[k := TouchLink(inv.links[k], inv.observations[o], o)]
      && r.listings[i].lastSeenAt == Max(inv.listings[i].lastSeenAt, inv.observations[o].observedAt)
  {
    hide ApplyFields, RecordListingFacts, KindsSince, TouchLink;
    UpdateReads(inv, k);
    var i := inv.links[k].listing;
    var row := inv.observations[o];
    if inv.links[k].latestObservation != o
      && inv.observations[inv.links[k].latestObservation].contentHash != row.contentHash
    {
      var touched := Touch(inv, k, o);
      RecordShape(touched.facts, i, row, o, now);
      var recorded := touched.(facts := RecordListingFacts(touched.facts, i, row, o, now));
      ApplyFieldsShape(recorded, i, o);
    }
  }

  lemma AddShape(inv: Inventory, o: nat, building: nat, unit: Option<nat>, via: DiscoveryMethod, now: Time)
    requires o < |inv.observations|
    ensures
      var r := AddListing(inv, o, building, unit, via, now).after;
      var i := |inv.listings|;
      && r == inv.(links := r.links, listings := r.listings, events := r.events, facts := r.facts,
                   candidates := r.candidates)
      && r.listings == inv.listings + [FirstListing(inv.observations[o], building, unit)]
      && r.links == inv.links + [NewLink(i, o, inv.observations[o], via, SourceNativeContinuity)]
      && r.events == Emit(inv.events, CreatedEvent(i, o, inv.observations[o].observedAt))
      && r.facts == RecordListingFacts(inv.facts, i, inv.observations[o], o, now).(issues := r.facts.issues)
      && inv.facts.issues <= r.facts.issues && inv.candidates <= r.candidates
      && r.facts.overrides == inv.facts.overrides
  {
    hide RecordListingFacts, Emit, ProposeDuplicates, FirstListing, NewLink, HasLayoutEvidence;
    RecordShape(inv.facts, |inv.listings|, inv.observations[o], o, now);
  }

  // ---------------------------------------------------------------- the batch services

  lemma {:induction false} InactivateAllShape(inv: Inventory, ids: seq<nat>, now: Time)
    requires forall a :: 0 <= a < |ids| ==> ids[a] < |inv.listings|
    ensures forall j: nat :: j < |inv.listings| ==>
              Disappearance.InactivateAll(inv, ids, now).listings[j] ==
                if j in ids then inv.listings[j].(lifecycle := Lifecycle.Inactive, inactiveAt := Some(now))
                else inv.listings[j]
  {
    if ids != [] {
      InactivateAllShape(inv, ids[..|ids| - 1], now);
      assert ids == ids[..|ids| - 1] + [ids[|ids| - 1]];
    }
  }

  /** A disappearance run rewrites link statuses and inactivates listings; nothing else about them changes. */
  lemma DisappearanceShape(inv: Inventory, run: nat, now: Time)
    ensures
      var r := Disappearance.ProcessSourceRun(inv, run, now);
      && r == inv.(links := r.links, listings := r.listings, events := r.events,
                   facts := inv.facts.(issues := r.facts.issues))
      && inv.facts.issues <= r.facts.issues
      && |r.links| == |inv.links| && |r.listings| == |inv.listings|
    ensures forall k :: 0 <= k < |inv.links| ==>
      var r := Disappearance.ProcessSourceRun(inv, run, now);
      r.links[k] == inv.links[k].(status := r.links[k].status)
    ensures forall j :: 0 <= j < |inv.listings| ==>
      var r := Disappearance.ProcessSourceRun(inv, run, now);
      || r.listings[j] == inv.listings[j]
      || (r.listings[j] == inv.listings[j].(lifecycle := Lifecycle.Inactive, inactiveAt := Some(now))
          && (inv.listings[j].lifecycle == Lifecycle.Active || inv.listings[j].lifecycle == Lifecycle.Candidate))
  {
    hide Disappearance.Sweep, Disappearance.InactivateAll, Disappearance.EligibleUpTo, Disappearance.Trips,
      Disappearance.BreakerIssue, Disappearance.NextStatus;
    if Disappearance.GateOpen(inv.runs, run) {
      var swept := Disappearance.Sweep(inv, run, now, |inv.links|);
      InactivateAllShape(swept, Disappearance.EligibleUpTo(swept, |swept.listings|), now);
    }
  }

  /** Admission rewrites lifecycles only, of the chosen rows only, to ACTIVE or EXCLUDED only. */
  lemma {:induction false} AdmissionShape(inv: Inventory, rows: seq<nat>, now: Time)
    requires ForeignKeys(inv) && forall a :: 0 <= a < |rows| ==> rows[a] < |inv.listings|
    ensures forall j: nat :: j < |inv.listings| ==>
      var r := Admission.EvaluateRows(inv, rows, now);
      && r.listings[j] == inv.listings[j].(lifecycle := r.listings[j].lifecycle)
      && (r.listings[j].lifecycle != inv.listings[j].lifecycle ==>
            j in rows && (r.listings[j].lifecycle == Lifecycle.Active || r.listings[j].lifecycle == Lifecycle.Excluded))
  {
    hide ForeignKeys, Admission.EvaluateOne;
    if rows != [] {
      var front, last := rows[..|rows| - 1], rows[|rows| - 1];
      AdmissionShape(inv, front, now);
      assert rows == front + [last];
      var before := Admission.EvaluateRows(inv, front, now);
      forall j: nat | j < |inv.listings|
        ensures Admission.EvaluateRows(inv, rows, now).listings[j] == before.listings[j]
             || (j == last && EvaluatedTo(before.listings[j], Admission.EvaluateRows(inv, rows, now).listings[j]))
      {
        EvaluateOneShape(before, last, now, j);
      }
    }
  }

  predicate EvaluatedTo(before: Listing, after: Listing) {
    && after == before.(lifecycle := after.lifecycle)
    && (after.lifecycle == Lifecycle.Active || after.lifecycle == Lifecycle.Excluded)
  }

  lemma EvaluateOneShape(inv: Inventory, i: nat, now: Time, j: nat)
    requires ForeignKeys(inv) && i < |inv.listings| && j < |inv.listings|
    ensures
      var r := Admission.EvaluateOne(inv, i, now);
      r.listings[j] == inv.listings[j] || (j == i && EvaluatedTo(inv.listings[j], r.listings[j]))
  {
    hide ForeignKeys, Admission.DecisionFor, Emit;
  }
}
