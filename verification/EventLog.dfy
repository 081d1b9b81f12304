/** The event log replays to the current fields: exactly when processing an observation keeps it so. */
module EventLog {
  import opened Prelude
  import opened Schema
  import opened FactHistory
  import opened Normalization
  import opened Engine
  import opened Shapes

  type FieldKey = key: FactKey | key != LayoutKey witness RentKey

  // ---------------------------------------------------------------- replaying

  /**
   * One event applied to the value replayed so far for one field of one listing: CREATED takes the value of the
   * observation it names, a change event must find its before-value and leaves its after-value.
   */
  function ReplayEvent(
      held: Option<FactValue>, event: Event, observations: seq<Observation>, i: nat, key: FieldKey): Option<FactValue> {
    if event.key.listing != i then held
    else if event.key.kind == EventKind.Created then
      if event.key.cause.ByObservation? && event.key.cause.observation < |observations|
      then Some(InitialValue(observations[event.key.cause.observation].parsed, key)) else None
    else if event.key.kind == KindOf(key) then
      if held.Some? && held == event.before then event.after else None
    else held
  }

  function Replay(events: seq<Event>, observations: seq<Observation>, i: nat, key: FieldKey): Option<FactValue> {
    if events == [] then None
    else ReplayEvent(Replay(events[..|events| - 1], observations, i, key), events[|events| - 1], observations, i, key)
  }

  /** Folding each listing's events from its creation values gives its current fields, every before-value in place. */
  ghost predicate LogAgrees(inv: Inventory) {
    forall i: nat, key: FieldKey :: i < |inv.listings| ==>
      Replay(inv.events, inv.observations, i, key) == Some(FieldOf(inv.listings[i], key))
  }

  predicate AboutFields(event: Event) {
    || event.key.kind == EventKind.Created || event.key.kind == PriceChanged
    || event.key.kind == AvailabilityChanged || event.key.kind == LaundryChanged
  }

  /** The log grew by events that say nothing about fields. */
  predicate QuietLog(before: seq<Event>, after: seq<Event>) {
    && before <= after
    && (forall e :: |before| <= e < |after| ==> !AboutFields(after[e]) && !after[e].key.cause.ByObservation?)
  }

  lemma QuietThen(a: seq<Event>, b: seq<Event>, c: seq<Event>)
    requires QuietLog(a, b) && QuietLog(b, c)
    ensures QuietLog(a, c)
  {
  }

  lemma {:induction false} QuietReplay(
      before: seq<Event>, after: seq<Event>, observations: seq<Observation>, i: nat, key: FieldKey)
    requires QuietLog(before, after)
    ensures Replay(after, observations, i, key) == Replay(before, observations, i, key)
    decreases |after|
  {
    if |before| < |after| {
      assert before <= after[..|after| - 1];
      QuietReplay(before, after[..|after| - 1], observations, i, key);
    } else {
      assert before == after;
    }
  }

  lemma {:induction false} ReplayIgnoresLaterObservations(
      events: seq<Event>, few: seq<Observation>, more: seq<Observation>, i: nat, key: FieldKey)
    requires few <= more
    requires forall e :: 0 <= e < |events| && events[e].key.cause.ByObservation? ==>
              events[e].key.cause.observation < |few|
    ensures Replay(events, few, i, key) == Replay(events, more, i, key)
  {
    if events != [] {
      ReplayIgnoresLaterObservations(events[..|events| - 1], few, more, i, key);
    }
  }

  lemma ReplayAppend(events: seq<Event>, event: Event, observations: seq<Observation>, i: nat, key: FieldKey)
    ensures Replay(events + [event], observations, i, key)
         == ReplayEvent(Replay(events, observations, i, key), event, observations, i, key)
  {
    assert (events + [event])[..|events|] == events;
  }

  // ---------------------------------------------------------------- one field of one update

  /** The field is assigned: a stated, different value with no active override. */
  predicate Changes(inv: Inventory, i: nat, o: nat, key: FieldKey)
    requires i < |inv.listings| && o < |inv.observations|
  {
    var proposed := Proposed(inv.observations[o].parsed, key);
    proposed.Some? && proposed.value != FieldOf(inv.listings[i], key)
      && !Overridden(inv.facts.overrides, i, FactField(key))
  }

  /** The change would be logged under a key that is already taken. */
  predicate Silent(inv: Inventory, i: nat, o: nat, key: FieldKey)
    requires i < |inv.listings| && o < |inv.observations|
  {
    Changes(inv, i, o, key) && HasKey(inv.events, EventKey(i, KindOf(key), ByObservation(o)))
  }

  lemma AssignSetsOneField(listing: Listing, parsed: Parsed, key: FieldKey, other: FieldKey)
    requires Proposed(parsed, key).Some?
    ensures FieldOf(Assign(listing, Proposed(parsed, key).value), other)
         == if other == key then Proposed(parsed, key).value else FieldOf(listing, other)
  {
  }

  ghost predicate AgreesAt(inv: Inventory, i: nat, key: FieldKey)
    requires i < |inv.listings|
  {
    Replay(inv.events, inv.observations, i, key) == Some(FieldOf(inv.listings[i], key))
  }

  /** The updated field still agrees if and only if its change, when there is one, was logged. */
  lemma UpdatedFieldAgreesIff(inv: Inventory, i: nat, o: nat, key: FieldKey)
    requires i < |inv.listings| && o < |inv.observations| && AgreesAt(inv, i, key)
    ensures AgreesAt(ApplyField(inv, i, o, key), i, key) <==> !Silent(inv, i, o, key)
  {
    hide HasKey, Overridden, RaiseConflict, Replay, Proposed;
    if Changes(inv, i, o, key) {
      var value := Proposed(inv.observations[o].parsed, key).value;
      var event := ChangeEvent(i, key, o, inv.observations[o].observedAt, FieldOf(inv.listings[i], key), value);
      AssignSetsOneField(inv.listings[i], inv.observations[o].parsed, key, key);
      ReplayAppend(inv.events, event, inv.observations, i, key);
    }
  }

  /** Every other field, of this and of every other listing, agrees as before. */
  lemma OtherFieldsAgreeAsBefore(inv: Inventory, i: nat, o: nat, key: FieldKey, j: nat, other: FieldKey)
    requires i < |inv.listings| && o < |inv.observations| && j < |inv.listings| && (j != i || other != key)
    ensures AgreesAt(ApplyField(inv, i, o, key), j, other) <==> AgreesAt(inv, j, other)
  {
    hide HasKey, Overridden, RaiseConflict, Replay, Proposed, FieldOf, Assign;
    if Changes(inv, i, o, key) {
      var value := Proposed(inv.observations[o].parsed, key).value;
      var event := ChangeEvent(i, key, o, inv.observations[o].observedAt, FieldOf(inv.listings[i], key), value);
      AssignSetsOneField(inv.listings[i], inv.observations[o].parsed, key, other);
      ReplaySkips(inv.events, event, inv.observations, j, other);
    }
  }

  lemma ReplaySkips(events: seq<Event>, event: Event, observations: seq<Observation>, j: nat, other: FieldKey)
    requires event.key.kind != EventKind.Created && (event.key.listing != j || event.key.kind != KindOf(other))
    ensures Replay(events + [event], observations, j, other) == Replay(events, observations, j, other)
  {
    hide Replay;
    ReplayAppend(events, event, observations, j, other);
  }

  lemma SilenceIsPerField(inv: Inventory, i: nat, o: nat, key: FieldKey, other: FieldKey)
    requires i < |inv.listings| && o < |inv.observations| && other != key
    ensures Silent(ApplyField(inv, i, o, key), i, o, other) <==> Silent(inv, i, o, other)
  {
    hide Overridden, RaiseConflict, Proposed, HasKey;
    ApplyFieldShape(inv, i, o, key);
    if Changes(inv, i, o, key) {
      var value := Proposed(inv.observations[o].parsed, key).value;
      AssignSetsOneField(inv.listings[i], inv.observations[o].parsed, key, other);
      EmitKeepsOtherKeys(inv.events,
        ChangeEvent(i, key, o, inv.observations[o].observedAt, FieldOf(inv.listings[i], key), value),
        EventKey(i, KindOf(other), ByObservation(o)));
    }
  }

  lemma EmitKeepsOtherKeys(events: seq<Event>, event: Event, key: EventKey)
    requires event.key != key
    ensures HasKey(Emit(events, event), key) <==> HasKey(events, key)
  {
    if HasKey(events, key) {
      var e :| 0 <= e < |events| && events[e].key == key;
      assert Emit(events, event)[e].key == key;
    }
  }

  lemma FieldsAgreeIff(inv: Inventory, i: nat, o: nat, key: FieldKey)
    requires i < |inv.listings| && o < |inv.observations| && AgreesAt(inv, i, key)
    ensures AgreesAt(ApplyFields(inv, i, o), i, key) <==> !Silent(inv, i, o, key)
  {
    hide ApplyField, AgreesAt, Silent;
    var rent := ApplyField(inv, i, o, RentKey);
    var availability := ApplyField(rent, i, o, AvailabilityKey);
    match key
    case RentKey =>
      UpdatedFieldAgreesIff(inv, i, o, RentKey);
      OtherFieldsAgreeAsBefore(rent, i, o, AvailabilityKey, i, key);
      OtherFieldsAgreeAsBefore(availability, i, o, LaundryKey, i, key);
    case AvailabilityKey =>
      OtherFieldsAgreeAsBefore(inv, i, o, RentKey, i, key);
      SilenceIsPerField(inv, i, o, RentKey, key);
      UpdatedFieldAgreesIff(rent, i, o, AvailabilityKey);
      OtherFieldsAgreeAsBefore(availability, i, o, LaundryKey, i, key);
    case LaundryKey =>
      OtherFieldsAgreeAsBefore(inv, i, o, RentKey, i, key);
      SilenceIsPerField(inv, i, o, RentKey, key);
      OtherFieldsAgreeAsBefore(rent, i, o, AvailabilityKey, i, key);
      SilenceIsPerField(rent, i, o, AvailabilityKey, key);
      UpdatedFieldAgreesIff(availability, i, o, LaundryKey);
  }

  lemma OtherListingsAgree(inv: Inventory, i: nat, o: nat, j: nat, key: FieldKey)
    requires i < |inv.listings| && o < |inv.observations| && j < |inv.listings| && j != i && AgreesAt(inv, j, key)
    ensures AgreesAt(ApplyFields(inv, i, o), j, key)
  {
    hide ApplyField, AgreesAt;
    var rent := ApplyField(inv, i, o, RentKey);
    var availability := ApplyField(rent, i, o, AvailabilityKey);
    OtherFieldsAgreeAsBefore(inv, i, o, RentKey, j, key);
    OtherFieldsAgreeAsBefore(rent, i, o, AvailabilityKey, j, key);
    OtherFieldsAgreeAsBefore(availability, i, o, LaundryKey, j, key);
  }

  // ---------------------------------------------------------------- one observation

  /** The update reaches the fields: another row than the link's newest, with other content. */
  predicate Applies(inv: Inventory, o: nat, k: nat)
    requires o < |inv.observations| && k < |inv.links| && inv.links[k].latestObservation < |inv.observations|
  {
    && inv.links[k].latestObservation != o
    && inv.observations[inv.links[k].latestObservation].contentHash != inv.observations[o].contentHash
  }

  /** Some field would change without its event being written. */
  ghost predicate Unlogged(inv: Inventory, o: nat)
    requires ForeignKeys(inv)
  {
    CaseIsSound(inv, o);
    match CaseOf(inv, o)
    case Updating(k) =>
      UpdateReads(inv, k);
      Applies(inv, o, k) && exists key: FieldKey :: Silent(inv, inv.links[k].listing, o, key)
    case _ => false
  }

  predicate SameFields(a: Listing, b: Listing) {
    a.rent == b.rent && a.availability == b.availability && a.laundry == b.laundry
  }

  /** Same events, same observations, same fields: the log agrees as before. */
  lemma SameFieldsAgree(inv: Inventory, r: Inventory)
    requires r.events == inv.events && r.observations == inv.observations && |r.listings| == |inv.listings|
    requires forall j :: 0 <= j < |inv.listings| ==> SameFields(inv.listings[j], r.listings[j])
    ensures LogAgrees(r) <==> LogAgrees(inv)
  {
    hide Replay;
    assert forall j: nat, key: FieldKey :: j < |inv.listings| ==>
        FieldOf(r.listings[j], key) == FieldOf(inv.listings[j], key);
    if LogAgrees(inv) {
      forall j: nat, key: FieldKey | j < |r.listings|
        ensures Replay(r.events, r.observations, j, key) == Some(FieldOf(r.listings[j], key))
      {
        assert Replay(inv.events, inv.observations, j, key) == Some(FieldOf(inv.listings[j], key));
      }
    }
    if LogAgrees(r) {
      forall j: nat, key: FieldKey | j < |inv.listings|
        ensures Replay(inv.events, inv.observations, j, key) == Some(FieldOf(inv.listings[j], key))
      {
        assert Replay(r.events, r.observations, j, key) == Some(FieldOf(r.listings[j], key));
      }
    }
  }

  lemma NewListingAgrees(inv: Inventory, o: nat, building: nat, unit: Option<nat>, via: DiscoveryMethod, now: Time)
    requires ForeignKeys(inv) && LogAgrees(inv) && o < |inv.observations|
    ensures LogAgrees(AddListing(inv, o, building, unit, via, now).after)
  {
    hide AddListing, RecordListingFacts, Replay;
    AddShape(inv, o, building, unit, via, now);
    var r := AddListing(inv, o, building, unit, via, now).after;
    var i := |inv.listings|;
    var event := CreatedEvent(i, o, inv.observations[o].observedAt);
    assert forall e :: 0 <= e < |inv.events| ==> EventRefers(inv.events[e], inv);
    assert r.events == inv.events + [event];
    forall j: nat, key: FieldKey | j < |r.listings|
      ensures Replay(r.events, r.observations, j, key) == Some(FieldOf(r.listings[j], key))
    {
      ReplayAppend(inv.events, event, inv.observations, j, key);
    }
  }

  lemma UpdateAgreesIff(inv: Inventory, o: nat, k: nat, now: Time)
    requires ForeignKeys(inv) && LogAgrees(inv) && o < |inv.observations| && k < |inv.links|
    requires inv.links[k].listing < |inv.listings| && inv.links[k].latestObservation < |inv.observations|
    ensures LogAgrees(UpdateExisting(inv, o, k, now).after) <==>
      !(Applies(inv, o, k) && exists key: FieldKey :: Silent(inv, inv.links[k].listing, o, key))
  {
    hide ApplyFields, RecordListingFacts, KindsSince, TouchLink, Silent, LogAgrees;
    var i := inv.links[k].listing;
    var row := inv.observations[o];
    if inv.links[k].latestObservation != o {
      var touched := Touch(inv, k, o);
      SameFieldsAgree(inv, touched);
      if Applies(inv, o, k) {
        var recorded := touched.(facts := RecordListingFacts(touched.facts, i, row, o, now));
        RecordShape(touched.facts, i, row, o, now);
        SameFieldsAgree(inv, recorded);
        forall key: FieldKey ensures Silent(recorded, i, o, key) <==> Silent(inv, i, o, key) {
          SilenceReads(inv, recorded, i, o, key);
        }
        FieldsLogAgreesIff(recorded, i, o);
        var applied := ApplyFields(recorded, i, o);
        SameFieldsAgree(applied, StampChange(applied, i, row.observedAt, KindsSince(inv.events, applied.events)));
      }
    }
  }

  lemma SilenceReads(inv: Inventory, r: Inventory, i: nat, o: nat, key: FieldKey)
    requires i < |inv.listings| && i < |r.listings| && o < |inv.observations|
    requires r.observations == inv.observations && r.events == inv.events && r.facts.overrides == inv.facts.overrides
    requires SameFields(inv.listings[i], r.listings[i])
    ensures Silent(r, i, o, key) <==> Silent(inv, i, o, key)
  {
  }

  lemma FieldsLogAgreesIff(inv: Inventory, i: nat, o: nat)
    requires i < |inv.listings| && o < |inv.observations| && LogAgrees(inv)
    ensures LogAgrees(ApplyFields(inv, i, o)) <==> forall key: FieldKey :: !Silent(inv, i, o, key)
  {
    hide ApplyFields, Silent, Replay;
    var r := ApplyFields(inv, i, o);
    forall key: FieldKey ensures AgreesAt(r, i, key) <==> !Silent(inv, i, o, key) {
      assert AgreesAt(inv, i, key);
      FieldsAgreeIff(inv, i, o, key);
    }
    forall j: nat, key: FieldKey | j < |inv.listings| && j != i ensures AgreesAt(r, j, key) {
      assert AgreesAt(inv, j, key);
      OtherListingsAgree(inv, i, o, j, key);
    }
    AgreesEverywhere(r);
  }

  lemma AgreesEverywhere(inv: Inventory)
    ensures LogAgrees(inv) <==> forall j: nat, key: FieldKey | j < |inv.listings| :: AgreesAt(inv, j, key)
  {
    if forall j: nat, key: FieldKey | j < |inv.listings| :: AgreesAt(inv, j, key) {
      forall j: nat, key: FieldKey | j < |inv.listings|
        ensures Replay(inv.events, inv.observations, j, key) == Some(FieldOf(inv.listings[j], key))
      {
        assert AgreesAt(inv, j, key);
      }
    }
  }

  /** After processing an observation the log still agrees if and only if no field changed under a spent event key. */
  lemma NormalizeAgreesIff(inv: Inventory, o: nat, via: DiscoveryMethod, now: Time)
    requires ForeignKeys(inv) && LogAgrees(inv)
    ensures LogAgrees(Normalized(inv, o, via, now)) <==> !Unlogged(inv, o)
  {
    hide AddListing, UpdateExisting, PlacesGrow, PlacesRefer, Normalized, CaseOf, MatchingLinks, LogAgrees, Applies,
      Silent, ForeignKeys;
    NormalizedByCase(inv, o, via, now);
    match CaseOf(inv, o)
    case Nothing =>
    case Attaching(places, listing, identity) =>
      SameFieldsAgree(inv, Attach(inv.(places := places), o, listing, via, identity));
    case Adding(places, building, unit) =>
      PlacesKeepKeys(inv, places);
      SameFieldsAgree(inv, inv.(places := places));
      NewListingAgrees(inv.(places := places), o, building, unit, via, now);
    case Updating(k) =>
      UpdateReads(inv, k);
      UpdateAgreesIff(inv, o, k, now);
  }
}
