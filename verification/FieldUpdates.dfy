/** What processing an observation of a known link writes, and the evidence it leaves, in the columns of the tables. */
module FieldUpdates {
  import opened Prelude
  import opened Schema
  import opened FactHistory
  import opened Normalization
  import opened Engine
  import opened Shapes
  import opened EventLog

  // ---------------------------------------------------------------- evidence

  /** An ACTIVE override row on this fact. */
  predicate Held(overrides: seq<Override>, entity: nat, key: FactKey) {
    exists o :: 0 <= o < |overrides| && overrides[o].entity == entity && overrides[o].field == FactField(key)
      && overrides[o].status == OverrideStatus.Active
  }

  /** The override that governs is one of the ACTIVE rows of the fact, and found whenever there is one. */
  lemma GoverningOverride(overrides: seq<Override>, entity: nat, key: FactKey)
    ensures
      var found := ActiveOverride(overrides, entity, FactField(key));
      && (found.Some? <==> Held(overrides, entity, key))
      && (found.Some? ==>
            && found.value in overrides && found.value.entity == entity
            && found.value.field == FactField(key) && found.value.status == OverrideStatus.Active)
  {
  }

  /**
   * Evidence is always appended; unless an operator holds the fact, its current resolution ends now and a new one cites
   * the evidence, RESOLVED when it was asserted and UNKNOWN otherwise.
   */
  lemma RecordedColumns(f: Facts, assertion: Assertion, now: Time)
    ensures
      var g := Record(f, assertion, now);
      && g.assertions == f.assertions + [assertion] && g.overrides == f.overrides && g.issues == f.issues
      && (if Held(f.overrides, assertion.entity, assertion.key) then g.resolutions == f.resolutions
          else
            && |g.resolutions| == |f.resolutions| + 1
            && (forall r :: 0 <= r < |f.resolutions| ==>
                  g.resolutions[r] ==
                    if f.resolutions[r].entity == assertion.entity && f.resolutions[r].key == assertion.key
                      && f.resolutions[r].supersededAt == None
                    then f.resolutions[r].(supersededAt := Some(now)) else f.resolutions[r])
            && g.resolutions[|f.resolutions|] == Resolution(
                 assertion.entity, assertion.key, |f.assertions|,
                 if assertion.valueStatus == ValueStatus.Asserted then ResolutionStatus.Resolved
                 else ResolutionStatus.Unknown,
                 None))
  {
  }

  /** A conflict is raised exactly when the override asks for review and no OPEN conflict on the fact exists. */
  lemma ConflictColumns(f: Facts, override: Override, entity: nat, key: FactKey, incoming: FactValue)
    ensures
      var g := RaiseConflict(f, override, entity, key, incoming);
      && g == f.(issues := g.issues)
      && g.issues ==
           if override.reviewOnConflict
             && !exists n :: 0 <= n < |f.issues| && f.issues[n].entity == entity
                  && f.issues[n].status == IssueStatus.Open && f.issues[n].kind.Conflict? && f.issues[n].kind.key == key
           then f.issues + [Issue(entity, Conflict(key, incoming), IssueStatus.Open)] else f.issues
  {
  }

  lemma {:induction false} RecordAllConcat(f: Facts, a: seq<Assertion>, b: seq<Assertion>, now: Time)
    ensures RecordAll(f, a + b, now) == RecordAll(RecordAll(f, a, now), b, now)
    decreases |a|
  {
    hide Record;
    if a == [] {
      assert a + b == b;
    } else {
      assert (a + b)[0] == a[0] && (a + b)[1..] == a[1..] + b;
      RecordAllConcat(Record(f, a[0], now), a[1..], b, now);
    }
  }

  lemma RecordOne(f: Facts, assertion: Assertion, now: Time)
    ensures RecordAll(f, [assertion], now) == Record(f, assertion, now)
  {
    hide Record;
    assert [assertion][1..] == [];
  }

  function StatedOf(row: Observation, listing: nat, o: nat, key: FactKey): seq<Assertion> {
    match key
    case RentKey =>
      if row.parsed.rent.Some?
      then [Assertion(listing, RentKey, RentValue(row.parsed.rent), ValueStatus.Asserted, o)] else []
    case LayoutKey =>
      if row.parsed.layout != LayoutClass.Unknown
      then [Assertion(listing, LayoutKey, LayoutValue(row.parsed.layout), ValueStatus.Asserted, o)] else []
    case LaundryKey =>
      if row.parsed.laundry != Laundry.Unknown
      then [Assertion(listing, LaundryKey, LaundryValue(row.parsed.laundry), ValueStatus.Asserted, o)] else []
    case AvailabilityKey =>
      if row.parsed.availability != Availability.Unknown
      then [Assertion(listing, AvailabilityKey, AvailabilityValue(row.parsed.availability), ValueStatus.Asserted, o)]
      else []
  }

  /** The evidence of one observation: what it states of rent, layout, laundry and availability, in this order. */
  function StatedBy(row: Observation, listing: nat, o: nat): seq<Assertion> {
    StatedOf(row, listing, o, RentKey) + StatedOf(row, listing, o, LayoutKey)
    + StatedOf(row, listing, o, LaundryKey) + StatedOf(row, listing, o, AvailabilityKey)
  }

  lemma RecordsStated(f: Facts, listing: nat, key: FactKey, row: Observation, o: nat, now: Time)
    ensures RecordProposed(f, listing, key, row, o, now) == RecordAll(f, StatedOf(row, listing, o, key), now)
  {
    hide Record;
    if StatedOf(row, listing, o, key) != [] {
      RecordOne(f, StatedOf(row, listing, o, key)[0], now);
    }
  }

  /** Processing records exactly the stated facts: a value is stated unless it is absent or UNKNOWN. */
  lemma EvidenceAppended(f: Facts, listing: nat, row: Observation, o: nat, now: Time)
    ensures RecordListingFacts(f, listing, row, o, now) == RecordAll(f, StatedBy(row, listing, o), now)
  {
    hide RecordAll, RecordProposed, StatedOf;
    var rent, layout := StatedOf(row, listing, o, RentKey), StatedOf(row, listing, o, LayoutKey);
    var laundry, availability := StatedOf(row, listing, o, LaundryKey), StatedOf(row, listing, o, AvailabilityKey);
    RecordsStated(f, listing, RentKey, row, o, now);
    RecordsStated(RecordAll(f, rent, now), listing, LayoutKey, row, o, now);
    RecordAllConcat(f, rent, layout, now);
    RecordsStated(RecordAll(f, rent + layout, now), listing, LaundryKey, row, o, now);
    RecordAllConcat(f, rent + layout, laundry, now);
    RecordsStated(RecordAll(f, rent + layout + laundry, now), listing, AvailabilityKey, row, o, now);
    RecordAllConcat(f, rent + layout + laundry, availability, now);
  }

  /**
   * The badge needs a washer and dryer confirmed in the unit, a resolved fact, and validation: passed, or not
   * applicable and confirmed by a human. A value still pending, warned about or failed never carries it.
   */
  lemma BadgeNeedsValidation(laundry: Laundry, validation: ValidationStatus, resolved: bool, human: bool)
    ensures BadgeEligible(laundry, validation, resolved, human) ==>
      && laundry == InUnitWasherDryerConfirmed && resolved
      && validation !in {ValidationStatus.Pending, ValidationStatus.Warning, ValidationStatus.Failed}
    ensures laundry == InUnitWasherDryerConfirmed && resolved ==>
      && BadgeEligible(laundry, ValidationStatus.Passed, resolved, human)
      && (BadgeEligible(laundry, ValidationStatus.NotApplicable, resolved, human) <==> human)
  {
  }

  // ---------------------------------------------------------------- one update

  /** The event of a changed field, unless its key is spent. */
  function Logged(events: seq<Event>, changed: bool, event: Event): seq<Event> {
    if changed && (forall e :: 0 <= e < |events| ==> events[e].key != event.key) then events + [event] else events
  }

  /** The rent: a stated, different value that no operator holds is logged with the rent before it and assigned. */
  lemma RentColumns(inv: Inventory, i: nat, o: nat)
    requires i < |inv.listings| && o < |inv.observations|
    ensures
      var row, was, r := inv.observations[o], inv.listings[i], ApplyField(inv, i, o, RentKey);
      var changed := row.parsed.rent.Some? && row.parsed.rent != was.rent && !Held(inv.facts.overrides, i, RentKey);
      && r.listings == inv.listings[i := if changed then was.(rent := row.parsed.rent) else was]
      && r.events == Logged(inv.events, changed,
           Event(EventKey(i, PriceChanged, ByObservation(o)), row.observedAt,
                 Some(RentValue(was.rent)), Some(RentValue(row.parsed.rent))))
      && r.facts.assertions == inv.facts.assertions && r.facts.resolutions == inv.facts.resolutions
      && r.facts.overrides == inv.facts.overrides
  {
    GoverningOverride(inv.facts.overrides, i, RentKey);
    assert inv.listings[i := inv.listings[i]] == inv.listings;
  }

  /** The availability, likewise. */
  lemma AvailabilityColumns(inv: Inventory, i: nat, o: nat)
    requires i < |inv.listings| && o < |inv.observations|
    ensures
      var row, was, r := inv.observations[o], inv.listings[i], ApplyField(inv, i, o, AvailabilityKey);
      var changed := row.parsed.availability != Availability.Unknown && row.parsed.availability != was.availability
        && !Held(inv.facts.overrides, i, AvailabilityKey);
      && r.listings == inv.listings[i := if changed then was.(availability := row.parsed.availability) else was]
      && r.events == Logged(inv.events, changed,
           Event(EventKey(i, AvailabilityChanged, ByObservation(o)), row.observedAt,
                 Some(AvailabilityValue(was.availability)), Some(AvailabilityValue(row.parsed.availability))))
      && r.facts.assertions == inv.facts.assertions && r.facts.resolutions == inv.facts.resolutions
      && r.facts.overrides == inv.facts.overrides
  {
    GoverningOverride(inv.facts.overrides, i, AvailabilityKey);
    assert inv.listings[i := inv.listings[i]] == inv.listings;
  }

  /** The laundry, likewise; its badge is gone until somebody validates the new value. */
  lemma LaundryColumns(inv: Inventory, i: nat, o: nat)
    requires i < |inv.listings| && o < |inv.observations|
    ensures
      var row, was, r := inv.observations[o], inv.listings[i], ApplyField(inv, i, o, LaundryKey);
      var changed := row.parsed.laundry != Laundry.Unknown && row.parsed.laundry != was.laundry
        && !Held(inv.facts.overrides, i, LaundryKey);
      && r.listings == inv.listings[i := if changed then was.(laundry := row.parsed.laundry, badge := false) else was]
      && r.events == Logged(inv.events, changed,
           Event(EventKey(i, LaundryChanged, ByObservation(o)), row.observedAt,
                 Some(LaundryValue(was.laundry)), Some(LaundryValue(row.parsed.laundry))))
      && r.facts.assertions == inv.facts.assertions && r.facts.resolutions == inv.facts.resolutions
      && r.facts.overrides == inv.facts.overrides
  {
    GoverningOverride(inv.facts.overrides, i, LaundryKey);
    assert inv.listings[i := inv.listings[i]] == inv.listings;
  }

  /**
   * An operator's value differing from what is stated raises one conflict when the override asks for review and none is
   * open; nothing else raises one.
   */
  lemma FieldConflict(inv: Inventory, i: nat, o: nat, key: FieldKey)
    requires i < |inv.listings| && o < |inv.observations| && OneActiveOverride(inv.facts)
    ensures
      var r, stated := ApplyField(inv, i, o, key), Proposed(inv.observations[o].parsed, key);
      var raises := stated.Some? && stated.value != FieldOf(inv.listings[i], key)
        && (exists n :: 0 <= n < |inv.facts.overrides|
              && inv.facts.overrides[n].entity == i && inv.facts.overrides[n].field == FactField(key)
              && inv.facts.overrides[n].status == OverrideStatus.Active
              && inv.facts.overrides[n].value != stated && inv.facts.overrides[n].reviewOnConflict)
        && !(exists n :: 0 <= n < |inv.facts.issues|
               && inv.facts.issues[n].entity == i && inv.facts.issues[n].status == IssueStatus.Open
               && inv.facts.issues[n].kind.Conflict? && inv.facts.issues[n].kind.key == key);
      r.facts.issues == inv.facts.issues
        + if raises then [Issue(i, Conflict(key, stated.value), IssueStatus.Open)] else []
  {
    GoverningOverride(inv.facts.overrides, i, key);
    var stated := Proposed(inv.observations[o].parsed, key);
    var found := ActiveOverride(inv.facts.overrides, i, FactField(key));
    if found.Some? {
      var n :| 0 <= n < |inv.facts.overrides| && inv.facts.overrides[n] == found.value;
      assert Governs(inv.facts.overrides[n], i, FactField(key));
      if stated.Some? {
        ConflictColumns(inv.facts, found.value, i, key, stated.value);
      }
    }
  }

  /** The link and the stamp: the newest sighting counts, a listing is as fresh as the freshest. */
  predicate StampsMoved(inv: Inventory, r: Inventory, o: nat, k: nat)
    requires o < |inv.observations| && k < |inv.links| && inv.links[k].listing < |inv.listings|
  {
    var row, link, i := inv.observations[o], inv.links[k], inv.links[k].listing;
    && r.links == inv.links[k := if row.observedAt >= link.lastSeenAt
                                 then link.(lastSeenAt := row.observedAt, latestObservation := o) else link]
    && |r.listings| == |inv.listings|
    && (forall j :: 0 <= j < |inv.listings| && j != i ==> r.listings[j] == inv.listings[j])
    && r.listings[i].lastSeenAt
         == (if row.observedAt > inv.listings[i].lastSeenAt then row.observedAt else inv.listings[i].lastSeenAt)
  }

  /**
   * The whole update: nothing for the link's newest observation itself; stamps only for unchanged content; otherwise
   * evidence, each brought value with its event, and the time of change exactly when an event was written.
   */
  lemma UpdateColumns(inv: Inventory, o: nat, k: nat, now: Time)
    requires ForeignKeys(inv) && o < |inv.observations| && k < |inv.links|
    ensures inv.links[k].listing < |inv.listings| && inv.links[k].latestObservation < |inv.observations|
    ensures
      var row, i, latest := inv.observations[o], inv.links[k].listing, inv.links[k].latestObservation;
      var was, r := inv.listings[i], UpdateExisting(inv, o, k, now).after;
      && (latest == o ==> r == inv)
      && (latest != o ==> StampsMoved(inv, r, o, k))
      && (latest != o && inv.observations[latest].contentHash == row.contentHash ==>
            && r.events == inv.events && r.facts == inv.facts
            && r.listings[i] == was.(lastSeenAt := r.listings[i].lastSeenAt))
      && (latest != o && inv.observations[latest].contentHash != row.contentHash ==>
            var rent := row.parsed.rent.Some? && row.parsed.rent != was.rent
              && !Held(inv.facts.overrides, i, RentKey);
            var availability := row.parsed.availability != Availability.Unknown
              && row.parsed.availability != was.availability && !Held(inv.facts.overrides, i, AvailabilityKey);
            var laundry := row.parsed.laundry != Laundry.Unknown && row.parsed.laundry != was.laundry
              && !Held(inv.facts.overrides, i, LaundryKey);
            && r.listings[i] == was.(
                 rent := if rent then row.parsed.rent else was.rent,
                 availability := if availability then row.parsed.availability else was.availability,
                 laundry := if laundry then row.parsed.laundry else was.laundry,
                 badge := was.badge && !laundry, lastSeenAt := r.listings[i].lastSeenAt,
                 lastMaterialChangeAt := if |r.events| > |inv.events| then row.observedAt
                                         else was.lastMaterialChangeAt)
            && r.facts.assertions == inv.facts.assertions + StatedBy(row, i, o)
            && var priced := Logged(inv.events, rent,
                 Event(EventKey(i, PriceChanged, ByObservation(o)), row.observedAt,
                       Some(RentValue(was.rent)), Some(RentValue(row.parsed.rent))));
               var offered := Logged(priced, availability,
                 Event(EventKey(i, AvailabilityChanged, ByObservation(o)), row.observedAt,
                       Some(AvailabilityValue(was.availability)), Some(AvailabilityValue(row.parsed.availability))));
               r.events == Logged(offered, laundry,
                 Event(EventKey(i, LaundryChanged, ByObservation(o)), row.observedAt,
                       Some(LaundryValue(was.laundry)), Some(LaundryValue(row.parsed.laundry)))))
  {
    hide ForeignKeys, ApplyField, RecordListingFacts, StatedBy, Held, Logged;
    UpdateReads(inv, k);
    var row, i, latest := inv.observations[o], inv.links[k].listing, inv.links[k].latestObservation;
    if latest != o && inv.observations[latest].contentHash != row.contentHash {
      var touched := Touch(inv, k, o);
      RecordShape(touched.facts, i, row, o, now);
      EvidenceGrows(touched.facts, i, row, o, now);
      var recorded := touched.(facts := RecordListingFacts(touched.facts, i, row, o, now));
      RentColumns(recorded, i, o);
      var rent := ApplyField(recorded, i, o, RentKey);
      AvailabilityColumns(rent, i, o);
      var availability := ApplyField(rent, i, o, AvailabilityKey);
      LaundryColumns(availability, i, o);
    }
  }

  lemma EvidenceGrows(f: Facts, listing: nat, row: Observation, o: nat, now: Time)
    ensures RecordListingFacts(f, listing, row, o, now).assertions == f.assertions + StatedBy(row, listing, o)
  {
    EvidenceAppended(f, listing, row, o, now);
    RecordAllAppends(f, StatedBy(row, listing, o), now);
  }

  lemma {:induction false} RecordAllAppends(f: Facts, assertions: seq<Assertion>, now: Time)
    ensures RecordAll(f, assertions, now).assertions == f.assertions + assertions
    decreases |assertions|
  {
    if assertions != [] {
      RecordedColumns(f, assertions[0], now);
      RecordAllAppends(Record(f, assertions[0], now), assertions[1..], now);
    }
  }
}
