/** The normalization service over a live database; every method meets its function in `Normalization`. */
module Normalizer {
  import opened Prelude
  import opened Schema
  import opened FactHistory
  import opened Normalization

  lemma NothingAtFreshAddress(p: Places)
    requires PlacesRefer(p)
    ensures BuildingsAt(p.buildings, |p.addresses|) == []
  {
    WhereNone(p.buildings, (b: Building) => b.address == |p.addresses|);
  }

  /** Only a building that was there already can hold two units of one key, so nothing was inserted on the way. */
  lemma UnitFailureMeansNoInsert(p: Places, row: Observation, building: nat, key: string)
    requires PlacesRefer(p) && Locate(p, row).Success? && Locate(p, row).value.1 == building
    requires |UnitsAt(p.units, building, key)| > 1
    ensures Locate(p, row).value.0 == p
  {
    var units := UnitsAt(p.units, building, key);
    assert p.units[units[0]].building == building;
    var (q, address) := ResolveAddress(p, row).value;
    var ids := BuildingsAt(q.buildings, address);
    assert ids != [] ==> q.buildings[ids[0]].address == address;
  }

  lemma NoKindsYet(events: seq<Event>)
    ensures KindsSince(events, events) == []
  {
  }

  lemma KindsOfEmit(events: seq<Event>, event: Event)
    ensures events <= Emit(events, event)
    ensures KindsSince(events, Emit(events, event)) == if HasKey(events, event.key) then [] else [event.key.kind]
  {
  }

  lemma NoEvidenceNoMatch(inv: Inventory, building: nat, row: Observation)
    requires !HasLayoutEvidence(row.parsed.layout) || row.parsed.rent.None?
    ensures StrongMultiFieldMatch(inv, building, row) == None
  {
  }

  /** Distinct listings that are exactly the strong matches decide like the query's answer. */
  lemma SameStrongMatch(inv: Inventory, building: nat, row: Observation, matches: seq<nat>)
    requires forall a, b :: 0 <= a < b < |matches| ==> matches[a] < matches[b]
    requires forall j: nat :: j in matches <==> StrongMatch(inv, building, row, j)
    ensures StrongMultiFieldMatch(inv, building, row) ==
      if HasLayoutEvidence(row.parsed.layout) && row.parsed.rent.Some? && |matches| == 1 then Some(matches[0]) else None
  {
    hide LinkedToSource;
    var ids := StrongMatches(inv, building, row);
    assert forall j: nat :: j in ids <==> j in matches;
    SameElements(ids, matches);
  }

  lemma SameElements(a: seq<nat>, b: seq<nat>)
    requires forall m, n :: 0 <= m < n < |a| ==> a[m] < a[n]
    requires forall m, n :: 0 <= m < n < |b| ==> b[m] < b[n]
    requires forall j: nat :: j in a <==> j in b
    ensures |a| == 1 <==> |b| == 1
    ensures |a| == 1 ==> a[0] == b[0]
  {
    assert forall n :: 0 <= n < |a| ==> a[n] in b;
    assert forall n :: 0 <= n < |b| ==> b[n] in a;
    assert |a| > 1 ==> a[0] < a[1];
    assert |b| > 1 ==> b[0] < b[1];
  }

  class NormalizationService {
    const db: Database
    const recorder: FactRecorder

    ghost predicate Valid() {
      recorder.db == db
    }

    constructor (db: Database)
      ensures this.db == db && Valid()
    {
      this.db := db;
      this.recorder := new FactRecorder(db);
    }

    /** A failure is raised before the first write, so the rollback has nothing to undo. */
    method Process(o: nat, via: DiscoveryMethod, now: Time) returns (r: Result<Outcome>)
      requires Valid() && ForeignKeys(db.State())
      modifies db
      ensures db.State() == Normalized(old(db.State()), o, via, now)
      ensures
        var expected := ProcessObservation(old(db.State()), o, via, now);
        if expected.Success? then r == Success(expected.value.outcome) else r == Failure(expected.error)
    {
      if o >= |db.observations| {
        return Failure(RowNotFound);
      }
      var row := db.observations[o];
      if !Usable(row) {
        return Success(Outcome(Classification.Unresolved, None, None, []));
      }
      var link :- OneOrNone(MatchingLinks(db.links, row));
      if link.None? {
        r := Create(o, via, now);
      } else {
        var outcome := Update(o, link.value, now);
        r := Success(outcome);
      }
    }

    method FindOrCreateBuilding(row: Observation) returns (r: Result<nat>)
      requires PlacesRefer(db.PlaceTables())
      modifies db`addresses, db`buildings
      ensures
        var expected := Locate(old(db.PlaceTables()), row);
        if expected.Success? then r == Success(expected.value.1) && db.PlaceTables() == expected.value.0
        else r == Failure(expected.error) && db.PlaceTables() == old(db.PlaceTables())
    {
      NothingAtFreshAddress(db.PlaceTables());
      var address := |db.addresses|;
      if row.parsed.addressKey.Some? {
        var found :- OneOrNone(AddressesWith(db.addresses, row.parsed.addressKey.value));
        if found.Some? {
          address := found.value;
        } else {
          db.addresses := db.addresses + [NewAddress(true, row.parsed.addressKey.value)];
        }
      } else {
        db.addresses := db.addresses + [NewAddress(false, PlaceholderKey(row.url))];
      }
      var building :- OneOrNone(BuildingsAt(db.buildings, address));
      if building.Some? {
        return Success(building.value);
      }
      db.buildings := db.buildings + [Building.Building(address)];
      return Success(|db.buildings| - 1);
    }

    method Create(o: nat, via: DiscoveryMethod, now: Time) returns (r: Result<Outcome>)
      requires Valid() && ForeignKeys(db.State()) && o < |db.observations|
      modifies db
      ensures
        var expected := CreateCanonical(old(db.State()), o, via, now);
        if expected.Success? then r == Success(expected.value.outcome) && db.State() == expected.value.after
        else r == Failure(expected.error) && db.State() == old(db.State())
    {
      hide Locate, CreateInUnit, CreateWithoutUnit;
      var row := db.observations[o];
      ghost var places := db.PlaceTables();
      var building :- FindOrCreateBuilding(row);
      if row.parsed.unitKey.Some? {
        r := InUnit(o, building, row.parsed.unitKey.value, via, now);
        if r.Failure? {
          UnitFailureMeansNoInsert(places, row, building, row.parsed.unitKey.value);
        }
      } else {
        var outcome := WithoutUnit(o, building, via, now);
        r := Success(outcome);
      }
    }

    method InUnit(o: nat, building: nat, key: string, via: DiscoveryMethod, now: Time) returns (r: Result<Outcome>)
      requires Valid() && o < |db.observations|
      modifies db
      ensures
        var expected := CreateInUnit(old(db.State()), o, building, key, via, now);
        if expected.Success? then r == Success(expected.value.outcome) && db.State() == expected.value.after
        else r == Failure(expected.error) && db.State() == old(db.State())
      ensures r.Failure? ==> |UnitsAt(old(db.units), building, key)| > 1
    {
      hide AddListing, Attached, LatestSeen, UnitsAt;
      var unit :- OneOrNone(UnitsAt(db.units, building, key));
      if unit.Some? {
        var existing := LatestSeen(db.listings, ListingsOfUnit(db.listings, unit.value));
        if existing.Some? {
          var outcome := AttachCrossSourceLink(o, existing.value, via, ExactAddressAndUnit);
          return Success(outcome);
        }
      } else {
        unit := Some(|db.units|);
        db.units := db.units + [Unit(building, key, db.observations[o].parsed.layout)];
      }
      var outcome := InsertNew(o, building, unit, via, now);
      return Success(outcome);
    }

    method WithoutUnit(o: nat, building: nat, via: DiscoveryMethod, now: Time) returns (outcome: Outcome)
      requires Valid() && o < |db.observations|
      modifies db
      ensures Effect(db.State(), outcome) == CreateWithoutUnit(old(db.State()), o, building, via, now)
    {
      hide AddListing, Attached, StrongMultiFieldMatch;
      var strong := FindStrongMatch(building, db.observations[o]);
      if strong.Some? {
        outcome := AttachCrossSourceLink(o, strong.value, via, StrongMultiField);
      } else {
        outcome := InsertNew(o, building, None, via, now);
      }
    }

    method InsertNew(o: nat, building: nat, unit: Option<nat>, via: DiscoveryMethod, now: Time)
      returns (outcome: Outcome)
      requires Valid() && o < |db.observations|
      modifies db`listings, db`links, db`events, db`assertions, db`resolutions, db`candidates, db`issues
      ensures Effect(db.State(), outcome) == AddListing(old(db.State()), o, building, unit, via, now)
    {
      hide RecordListingFacts, GenerateDuplicateCandidates, Emit;
      var row := db.observations[o];
      var listing := |db.listings|;
      db.listings := db.listings + [FirstListing(row, building, unit)];
      var link := |db.links|;
      db.links := db.links + [NewLink(listing, o, row, via, SourceNativeContinuity)];
      var inserted := db.EmitEvent(CreatedEvent(listing, o, row.observedAt));
      RecordAll(listing, row, o, now);
      assert db.State() == InsertListing(old(db.State()), o, building, unit, via, now);
      GenerateCandidates(building, listing);
      return Outcome(New, Some(listing), Some(link), if inserted then [EventKind.Created] else []);
    }

    /** The strict conjunction; any ambiguity answers none. */
    method FindStrongMatch(building: nat, row: Observation) returns (listing: Option<nat>)
      ensures forall i: nat :: listing == Some(i) <==>
        && row.parsed.layout !in {LayoutClass.Unknown, LayoutClass.Conflicting} && row.parsed.rent.Some?
        && (set j: nat | j < |db.listings|
              && db.listings[j].building == building
              && db.listings[j].layout == row.parsed.layout && db.listings[j].rent == row.parsed.rent
              && db.listings[j].unit == None
              && db.listings[j].lifecycle !in {Lifecycle.Merged, Lifecycle.Inactive}
              && (forall k :: 0 <= k < |db.links| && db.links[k].listing == j ==> db.links[k].source != row.source))
           == {i}
      ensures listing == StrongMultiFieldMatch(db.State(), building, row)
    {
      hide LinkedToSource, StrongMultiFieldMatch;
      listing := None;
      if HasLayoutEvidence(row.parsed.layout) && row.parsed.rent.Some? {
        var matches: seq<nat> := [];
        for i: nat := 0 to |db.listings|
          invariant forall a :: 0 <= a < |matches| ==>
                    matches[a] < i && StrongMatch(db.State(), building, row, matches[a])
          invariant forall a, b :: 0 <= a < b < |matches| ==> matches[a] < matches[b]
          invariant forall j: nat :: j < i && StrongMatch(db.State(), building, row, j) ==> j in matches
        {
          var other := db.listings[i];
          if other.building == building && other.layout == row.parsed.layout && other.rent == row.parsed.rent
            && other.unit == None
            && other.lifecycle != Lifecycle.Merged && other.lifecycle != Lifecycle.Inactive
            && !LinkedToSource(db.links, i, row.source)
          {
            matches := matches + [i];
          }
        }
        if |matches| == 1 {
          listing := Some(matches[0]);
        }
        SameStrongMatch(db.State(), building, row, matches);
      } else {
        NoEvidenceNoMatch(db.State(), building, row);
      }
      forall i: nat {
        StrongMatchIff(db.State(), building, row, i);
      }
    }

    method AttachCrossSourceLink(o: nat, listing: nat, via: DiscoveryMethod, identity: IdentityMethod)
      returns (outcome: Outcome)
      requires o < |db.observations| && listing < |db.listings|
      modifies db`links, db`listings
      ensures Effect(db.State(), outcome) == Attached(old(db.State()), o, listing, via, identity)
    {
      var row := db.observations[o];
      var link := |db.links|;
      db.links := db.links + [NewLink(listing, o, row, via, identity)];
      var seen := Max(db.listings[listing].lastSeenAt, row.observedAt);
      db.listings := db.listings[listing := db.listings[listing].(lastSeenAt := seen)];
      return Outcome(MatchedExisting, Some(listing), Some(link), []);
    }

    method RecordOne(listing: nat, key: FactKey, row: Observation, o: nat, now: Time)
      requires Valid()
      modifies db`assertions, db`resolutions
      ensures db.FactTables() == RecordProposed(old(db.FactTables()), listing, key, row, o, now)
    {
      var proposed := Proposed(row.parsed, key);
      if proposed.Some? {
        recorder.RecordFact(listing, key, proposed.value, ValueStatus.Asserted, o, now);
      }
    }

    method RecordAll(listing: nat, row: Observation, o: nat, now: Time)
      requires Valid()
      modifies db`assertions, db`resolutions
      ensures db.FactTables() == RecordListingFacts(old(db.FactTables()), listing, row, o, now)
    {
      RecordOne(listing, RentKey, row, o, now);
      RecordOne(listing, LayoutKey, row, o, now);
      RecordOne(listing, LaundryKey, row, o, now);
      RecordOne(listing, AvailabilityKey, row, o, now);
    }

    method GenerateCandidates(building: nat, listing: nat)
      requires listing < |db.listings|
      modifies db`candidates, db`issues
      ensures db.State() == GenerateDuplicateCandidates(old(db.State()), building, listing)
    {
      if db.listings[listing].rent.None? || !HasLayoutEvidence(db.listings[listing].layout) {
        return;
      }
      for other: nat := 0 to |db.listings|
        invariant db.State() == ProposeDuplicates(old(db.State()), building, listing, other)
      {
        hide ProposePair;
        if PossibleDuplicateOf(db.listings, building, listing, other) {
          Propose(listing, other);
        }
      }
    }

    /** One candidate row and its review issue, unless the pair was ever proposed. */
    method Propose(listing: nat, other: nat)
      requires listing < |db.listings| && other < |db.listings|
      requires db.listings[listing].rent.Some? && db.listings[other].rent.Some?
      modifies db`candidates, db`issues
      ensures db.State() == ProposePair(old(db.State()), listing, other)
    {
      var a, b := Min(listing, other), Max(listing, other);
      if !PairKnown(db.candidates, a, b) {
        var x, y := db.listings[listing].rent.value, db.listings[other].rent.value;
        var candidate := |db.candidates|;
        db.candidates := db.candidates
          + [DuplicateCandidate(a, b, if x < y then y - x else x - y, CandidateStatus.Pending)];
        db.issues := db.issues + [Issue(a, PossibleDuplicate(candidate), IssueStatus.Open)];
      }
    }

    method TouchFreshness(k: nat, o: nat)
      requires k < |db.links| && o < |db.observations| && db.links[k].listing < |db.listings|
      modifies db`links, db`listings
      ensures db.State() == Touch(old(db.State()), k, o)
    {
      var row := db.observations[o];
      var i := db.links[k].listing;
      if row.observedAt >= db.links[k].lastSeenAt {
        db.links := db.links[k := db.links[k].(lastSeenAt := row.observedAt)];
        db.links := db.links[k := db.links[k].(latestObservation := o)];
      }
      db.listings := db.listings[i := db.listings[i].(lastSeenAt := Max(db.listings[i].lastSeenAt, row.observedAt))];
    }

    /** `override_blocks`: an active override always holds the field, and contrary evidence is surfaced. */
    method OverrideBlocks(i: nat, key: FactKey, incoming: FactValue) returns (blocked: bool)
      requires Valid()
      modifies db`issues
      ensures blocked == Overridden(db.overrides, i, FactField(key))
      ensures !blocked ==> db.issues == old(db.issues)
      ensures blocked ==>
        var override := ActiveOverride(db.overrides, i, FactField(key)).value;
        db.FactTables() == if override.value == Some(incoming) then old(db.FactTables())
                           else RaiseConflict(old(db.FactTables()), override, i, key, incoming)
    {
      var override := ActiveOverride(db.overrides, i, FactField(key));
      if override.None? {
        return false;
      }
      if Some(incoming) != override.value.value {
        recorder.RaiseConflictWithOverride(override.value, i, key, incoming);
      }
      return true;
    }

    method UpdateField(i: nat, o: nat, key: FactKey) returns (emitted: seq<EventKind>)
      requires Valid() && i < |db.listings| && o < |db.observations| && key != LayoutKey
      modifies db`listings, db`events, db`issues
      ensures db.State() == ApplyField(old(db.State()), i, o, key)
      ensures emitted == KindsSince(old(db.events), db.events)
    {
      hide RaiseConflict, HasKey, Overridden, Proposed, FieldOf, Assign, Emit, KindsSince;
      NoKindsYet(db.events);
      var row := db.observations[o];
      var proposed := Proposed(row.parsed, key);
      var held := FieldOf(db.listings[i], key);
      emitted := [];
      if proposed.Some? && proposed.value != held {
        var blocked := OverrideBlocks(i, key, proposed.value);
        if !blocked {
          KindsOfEmit(db.events, ChangeEvent(i, key, o, row.observedAt, held, proposed.value));
          var inserted := db.EmitEvent(ChangeEvent(i, key, o, row.observedAt, held, proposed.value));
          if inserted {
            emitted := [KindOf(key)];
          }
          db.listings := db.listings[i := Assign(db.listings[i], proposed.value)];
        }
      }
    }

    method UpdateFields(i: nat, o: nat) returns (emitted: seq<EventKind>)
      requires Valid() && i < |db.listings| && o < |db.observations|
      modifies db`listings, db`events, db`issues
      ensures db.State() == ApplyFields(old(db.State()), i, o)
      ensures emitted == KindsSince(old(db.events), db.events)
    {
      hide ApplyField;
      var rent := UpdateField(i, o, RentKey);
      var availability := UpdateField(i, o, AvailabilityKey);
      var laundry := UpdateField(i, o, LaundryKey);
      emitted := rent + availability + laundry;
    }

    method Update(o: nat, k: nat, now: Time) returns (outcome: Outcome)
      requires Valid() && ForeignKeys(db.State()) && o < |db.observations| && k < |db.links|
      modifies db
      ensures Effect(db.State(), outcome) == UpdateExisting(old(db.State()), o, k, now)
    {
      var row := db.observations[o];
      var i := db.links[k].listing;
      var latest := db.links[k].latestObservation;
      assert LinkRefers(db.links[k], db.State());
      hide ForeignKeys, ApplyFields, RecordListingFacts, TouchLink, KindsSince;
      if latest == o {
        return Outcome(Unchanged, Some(i), Some(k), []);
      }
      TouchFreshness(k, o);
      if db.observations[latest].contentHash == row.contentHash {
        return Outcome(Unchanged, Some(i), Some(k), []);
      }
      RecordAll(i, row, o, now);
      var emitted := UpdateFields(i, o);
      if emitted != [] {
        db.listings := db.listings[i := db.listings[i].(lastMaterialChangeAt := row.observedAt)];
        return Outcome(MaterialChange, Some(i), Some(k), emitted);
      }
      return Outcome(Unchanged, Some(i), Some(k), []);
    }
  }
}
