/** One source observation becomes canonical state: what process_observation computes, and the service object. */
module Normalization {
  import opened Prelude
  import opened Schema
  import opened FactHistory

  datatype Classification = New | MatchedExisting | Unchanged | MaterialChange | Unresolved

  datatype Outcome = Outcome(
    classification: Classification, listing: Option<nat>, link: Option<nat>, emitted: seq<EventKind>)

  datatype Effect = Effect(after: Inventory, outcome: Outcome)

  // ---------------------------------------------------------------- identity lookups

  /** Within-source identity: the native id when there is one, the URL otherwise. */
  predicate Matches(link: Link, row: Observation) {
    && link.source == row.source
    && if row.nativeId.Some? then link.nativeId == row.nativeId else link.url == row.url
  }

  function MatchingLinks(links: seq<Link>, row: Observation): seq<nat> {
    Where(links, (l: Link) => Matches(l, row))
  }

  /** scalar_one_or_none: two or more rows are an error. */
  function OneOrNone(ids: seq<nat>): (r: Result<Option<nat>>)
    ensures r.Success? ==> (r.value.Some? <==> |ids| == 1)
  {
    if |ids| == 0 then Success(None)
    else if |ids| == 1 then Success(Some(ids[0]))
    else Failure(MultipleRows)
  }

  function AddressesWith(addresses: seq<Address>, fingerprint: string): seq<nat> {
    Where(addresses, (a: Address) => a.fingerprint == fingerprint)
  }

  function BuildingsAt(buildings: seq<Building>, address: nat): seq<nat> {
    Where(buildings, (b: Building) => b.address == address)
  }

  function UnitsAt(units: seq<Unit>, building: nat, fingerprint: string): seq<nat> {
    Where(units, (u: Unit) => u.building == building && u.fingerprint == fingerprint)
  }

  function ListingsOfUnit(listings: seq<Listing>, unit: nat): seq<nat> {
    Where(listings, (l: Listing) => l.unit == Some(unit) && l.lifecycle != Lifecycle.Merged)
  }

  /** ORDER BY last_seen_at DESC LIMIT 1, the oldest row on a tie. */
  function LatestSeen(listings: seq<Listing>, ids: seq<nat>): (best: Option<nat>)
    requires forall a :: 0 <= a < |ids| ==> ids[a] < |listings|
    ensures best.Some? <==> ids != []
    ensures best.Some? ==> best.value in ids && best.value < |listings|
    ensures best.Some? ==> forall a :: 0 <= a < |ids| ==>
              listings[ids[a]].lastSeenAt <= listings[best.value].lastSeenAt
  {
    if ids == [] then
      None
    else
      var n := |ids| - 1;
      var rest := LatestSeen(listings, ids[..n]);
      if rest.Some? && listings[ids[n]].lastSeenAt <= listings[rest.value].lastSeenAt then rest else Some(ids[n])
  }

  predicate LinkedToSource(links: seq<Link>, listing: nat, source: nat) {
    exists k :: 0 <= k < |links| && links[k].listing == listing && links[k].source == source
  }

  predicate HasLayoutEvidence(layout: LayoutClass) {
    layout != LayoutClass.Unknown && layout != LayoutClass.Conflicting
  }

  /** Same building, layout and rent, no unit, neither merged nor inactive, not yet linked to this source. */
  predicate StrongMatch(inv: Inventory, building: nat, row: Observation, i: nat) {
    && i < |inv.listings|
    && inv.listings[i].building == building
    && inv.listings[i].layout == row.parsed.layout
    && inv.listings[i].rent == row.parsed.rent
    && inv.listings[i].unit == None
    && inv.listings[i].lifecycle != Lifecycle.Merged && inv.listings[i].lifecycle != Lifecycle.Inactive
    && !LinkedToSource(inv.links, i, row.source)
  }

  function StrongMatches(inv: Inventory, building: nat, row: Observation): seq<nat> {
    Where(seq(|inv.listings|, i => i), i => 0 <= i && StrongMatch(inv, building, row, i))
  }

  /** Exactly one same-building listing with this layout and rent, not yet linked to this source. */
  function StrongMultiFieldMatch(inv: Inventory, building: nat, row: Observation): (listing: Option<nat>)
    ensures listing.Some? ==>
              listing.value < |inv.listings| && inv.listings[listing.value].lifecycle != Lifecycle.Merged
  {
    if !HasLayoutEvidence(row.parsed.layout) || row.parsed.rent.None? then
      None
    else
      var ids := StrongMatches(inv, building, row);
      if |ids| == 1 then Some(ids[0]) else None
  }

  /**
   * A listing is the strong match if and only if layout and rent are stated and it alone has the building, the layout,
   * exactly the rent, no unit, is neither MERGED nor INACTIVE, and has no link of the observation's source.
   */
  lemma StrongMatchIff(inv: Inventory, building: nat, row: Observation, i: nat)
    ensures StrongMultiFieldMatch(inv, building, row) == Some(i) <==>
      && row.parsed.layout !in {LayoutClass.Unknown, LayoutClass.Conflicting} && row.parsed.rent.Some?
      && (set j: nat | j < |inv.listings|
            && inv.listings[j].building == building
            && inv.listings[j].layout == row.parsed.layout && inv.listings[j].rent == row.parsed.rent
            && inv.listings[j].unit == None
            && inv.listings[j].lifecycle !in {Lifecycle.Merged, Lifecycle.Inactive}
            && (forall k :: 0 <= k < |inv.links| && inv.links[k].listing == j ==> inv.links[k].source != row.source))
         == {i}
  {
    hide LinkedToSource;
    StrongMatchesAre(inv, building, row);
    var ids := StrongMatches(inv, building, row);
    OnlyElement(ids, i);
  }

  lemma OnlyElement(ids: seq<nat>, i: nat)
    requires forall a, b :: 0 <= a < b < |ids| ==> ids[a] < ids[b]
    ensures ids == [i] <==> (set j | j in ids) == {i}
  {
    var elements := set j | j in ids;
    assert forall a :: 0 <= a < |ids| ==> ids[a] in elements;
    assert |ids| > 1 ==> ids[0] < ids[1];
    if elements == {i} {
      assert i in elements;
    }
  }

  lemma StrongMatchesAre(inv: Inventory, building: nat, row: Observation)
    ensures (set j | j in StrongMatches(inv, building, row)) ==
      (set j: nat | j < |inv.listings|
         && inv.listings[j].building == building
         && inv.listings[j].layout == row.parsed.layout && inv.listings[j].rent == row.parsed.rent
         && inv.listings[j].unit == None
         && inv.listings[j].lifecycle !in {Lifecycle.Merged, Lifecycle.Inactive}
         && (forall k :: 0 <= k < |inv.links| && inv.links[k].listing == j ==> inv.links[k].source != row.source))
  {
    var ids := StrongMatches(inv, building, row);
    assert forall j: nat :: j < |inv.listings| && StrongMatch(inv, building, row, j) <==> j in ids;
  }

  // ---------------------------------------------------------------- address, building, unit

  function PlaceholderKey(url: string): string {
    "unresolved:" + url
  }

  function NewAddress(resolved: bool, fingerprint: string): Address {
    Address(resolved, fingerprint, false, Precision.Unknown, Boundary.Unresolved)
  }

  /** The address row, then the building row, each created when the lookup finds none. */
  function ResolveAddress(p: Places, row: Observation): Result<(Places, nat)> {
    if row.parsed.addressKey.None? then
      Success((p.(addresses := p.addresses + [NewAddress(false, PlaceholderKey(row.url))]), |p.addresses|))
    else
      var found :- OneOrNone(AddressesWith(p.addresses, row.parsed.addressKey.value));
      if found.Some? then Success((p, found.value))
      else Success((p.(addresses := p.addresses + [NewAddress(true, row.parsed.addressKey.value)]), |p.addresses|))
  }

  function ResolveBuilding(p: Places, address: nat): Result<(Places, nat)> {
    var found :- OneOrNone(BuildingsAt(p.buildings, address));
    if found.Some? then Success((p, found.value))
    else Success((p.(buildings := p.buildings + [Building.Building(address)]), |p.buildings|))
  }

  function Locate(p: Places, row: Observation): Result<(Places, nat)> {
    var (withAddress, address) :- ResolveAddress(p, row);
    ResolveBuilding(withAddress, address)
  }

  // ---------------------------------------------------------------- evidence

  function RecordProposed(f: Facts, listing: nat, key: FactKey, row: Observation, o: nat, now: Time): Facts {
    match Proposed(row.parsed, key)
    case None => f
    case Some(value) => Record(f, Assertion(listing, key, value, ValueStatus.Asserted, o), now)
  }

  function RecordListingFacts(f: Facts, listing: nat, row: Observation, o: nat, now: Time): Facts {
    var withRent := RecordProposed(f, listing, RentKey, row, o, now);
    var withLayout := RecordProposed(withRent, listing, LayoutKey, row, o, now);
    var withLaundry := RecordProposed(withLayout, listing, LaundryKey, row, o, now);
    RecordProposed(withLaundry, listing, AvailabilityKey, row, o, now)
  }

  // ---------------------------------------------------------------- new identity

  function NewLink(listing: nat, o: nat, row: Observation, via: DiscoveryMethod, identity: IdentityMethod): Link {
    Link(listing, row.source, row.nativeId, row.url, o, o, row.observedAt, row.observedAt,
         LinkStatus.Active, via, identity)
  }

  function Attach(inv: Inventory, o: nat, listing: nat, via: DiscoveryMethod, identity: IdentityMethod): Inventory
    requires o < |inv.observations| && listing < |inv.listings|
  {
    var row := inv.observations[o];
    var seen := Max(inv.listings[listing].lastSeenAt, row.observedAt);
    inv.(links := inv.links + [NewLink(listing, o, row, via, identity)],
         listings := inv.listings[listing := inv.listings[listing].(lastSeenAt := seen)])
  }

  function Attached(inv: Inventory, o: nat, listing: nat, via: DiscoveryMethod, identity: IdentityMethod): Effect
    requires o < |inv.observations| && listing < |inv.listings|
  {
    Effect(Attach(inv, o, listing, via, identity), Outcome(MatchedExisting, Some(listing), Some(|inv.links|), []))
  }

  /** Rents within two percent of the new listing's. */
  predicate SimilarRent(rent: nat, other: nat) {
    50 * (if rent < other then other - rent else rent - other) <= rent
  }

  predicate PossibleDuplicateOf(listings: seq<Listing>, building: nat, listing: nat, other: nat)
    requires listing < |listings| && other < |listings|
  {
    && other != listing
    && listings[other].building == building
    && listings[other].layout == listings[listing].layout
    && listings[other].rent.Some? && listings[listing].rent.Some?
    && listings[other].lifecycle != Lifecycle.Merged
    && SimilarRent(listings[listing].rent.value, listings[other].rent.value)
  }

  predicate PairKnown(candidates: seq<DuplicateCandidate>, a: nat, b: nat) {
    exists c :: 0 <= c < |candidates| && candidates[c].a == a && candidates[c].b == b
  }

  /** Nothing but candidate rows and their review issues is added. */
  predicate ProposesOnly(inv: Inventory, r: Inventory) {
    && inv.candidates <= r.candidates && inv.facts.issues <= r.facts.issues
    && r == inv.(candidates := r.candidates, facts := inv.facts.(issues := r.facts.issues))
  }

  /** One review candidate for the pair (lower id first), unless the pair was ever proposed. */
  function ProposePair(inv: Inventory, listing: nat, other: nat): (r: Inventory)
    requires listing < |inv.listings| && other < |inv.listings|
    requires inv.listings[listing].rent.Some? && inv.listings[other].rent.Some?
    ensures ProposesOnly(inv, r)
  {
    var a, b := Min(listing, other), Max(listing, other);
    var x, y := inv.listings[listing].rent.value, inv.listings[other].rent.value;
    if PairKnown(inv.candidates, a, b) then
      inv
    else
      inv.(candidates := inv.candidates
             + [DuplicateCandidate(a, b, if x < y then y - x else x - y, CandidateStatus.Pending)],
           facts := inv.facts.(issues := inv.facts.issues
             + [Issue(a, PossibleDuplicate(|inv.candidates|), IssueStatus.Open)]))
  }

  /** The loop over the other listings, `upTo` of them visited. */
  function ProposeDuplicates(inv: Inventory, building: nat, listing: nat, upTo: nat): (r: Inventory)
    requires listing < |inv.listings| && upTo <= |inv.listings|
    ensures ProposesOnly(inv, r)
  {
    if upTo == 0 then
      inv
    else
      var before := ProposeDuplicates(inv, building, listing, upTo - 1);
      if PossibleDuplicateOf(inv.listings, building, listing, upTo - 1)
      then ProposePair(before, listing, upTo - 1)
      else before
  }

  function GenerateDuplicateCandidates(inv: Inventory, building: nat, listing: nat): (r: Inventory)
    requires listing < |inv.listings|
    ensures ProposesOnly(inv, r)
  {
    if inv.listings[listing].rent.None? || !HasLayoutEvidence(inv.listings[listing].layout) then inv
    else ProposeDuplicates(inv, building, listing, |inv.listings|)
  }

  function FirstListing(row: Observation, building: nat, unit: Option<nat>): Listing {
    Listing(building, unit, row.parsed.layout, row.parsed.rent, row.parsed.availability, row.parsed.laundry, false,
            Lifecycle.Candidate, CanonicalResolution.Provisional, row.observedAt, row.observedAt, row.observedAt, None)
  }

  function CreatedEvent(listing: nat, o: nat, at: Time): Event {
    Event(EventKey(listing, EventKind.Created, ByObservation(o)), at, None, None)
  }

  /** The listing, its first link, its CREATED event and its evidence: everything but the duplicate proposals. */
  function InsertListing(
      inv: Inventory, o: nat, building: nat, unit: Option<nat>, via: DiscoveryMethod, now: Time): (r: Inventory)
    requires o < |inv.observations|
    ensures |r.listings| == |inv.listings| + 1
  {
    var row := inv.observations[o];
    var listing := |inv.listings|;
    inv.(listings := inv.listings + [FirstListing(row, building, unit)],
         links := inv.links + [NewLink(listing, o, row, via, SourceNativeContinuity)],
         events := Emit(inv.events, CreatedEvent(listing, o, row.observedAt)),
         facts := RecordListingFacts(inv.facts, listing, row, o, now))
  }

  function AddListing(
      inv: Inventory, o: nat, building: nat, unit: Option<nat>, via: DiscoveryMethod, now: Time): Effect
    requires o < |inv.observations|
  {
    var listing := |inv.listings|;
    var event := CreatedEvent(listing, o, inv.observations[o].observedAt);
    Effect(GenerateDuplicateCandidates(InsertListing(inv, o, building, unit, via, now), building, listing),
           Outcome(New, Some(listing), Some(|inv.links|),
                   if HasKey(inv.events, event.key) then [] else [EventKind.Created]))
  }

  /** Exact building and unit: attach to the unit's live listing, or open a new one in that unit. */
  function CreateInUnit(
      inv: Inventory, o: nat, building: nat, key: string, via: DiscoveryMethod, now: Time): Result<Effect>
    requires o < |inv.observations|
  {
    var unit :- OneOrNone(UnitsAt(inv.places.units, building, key));
    if unit.Some? then
      var existing := LatestSeen(inv.listings, ListingsOfUnit(inv.listings, unit.value));
      if existing.Some? then Success(Attached(inv, o, existing.value, via, ExactAddressAndUnit))
      else Success(AddListing(inv, o, building, unit, via, now))
    else
      var units := inv.places.units + [Unit(building, key, inv.observations[o].parsed.layout)];
      Success(AddListing(inv.(places := inv.places.(units := units)), o, building, Some(|inv.places.units|), via, now))
  }

  function CreateWithoutUnit(inv: Inventory, o: nat, building: nat, via: DiscoveryMethod, now: Time): Effect
    requires o < |inv.observations|
  {
    var strong := StrongMultiFieldMatch(inv, building, inv.observations[o]);
    if strong.Some? then Attached(inv, o, strong.value, via, StrongMultiField)
    else AddListing(inv, o, building, None, via, now)
  }

  function CreateCanonical(inv: Inventory, o: nat, via: DiscoveryMethod, now: Time): Result<Effect>
    requires o < |inv.observations|
  {
    var row := inv.observations[o];
    var (places, building) :- Locate(inv.places, row);
    var located := inv.(places := places);
    if row.parsed.unitKey.Some? then CreateInUnit(located, o, building, row.parsed.unitKey.value, via, now)
    else Success(CreateWithoutUnit(located, o, building, via, now))
  }

  // ---------------------------------------------------------------- known identity

  function TouchLink(link: Link, row: Observation, o: nat): Link {
    if row.observedAt >= link.lastSeenAt then link.(lastSeenAt := row.observedAt, latestObservation := o) else link
  }

  function Touch(inv: Inventory, k: nat, o: nat): Inventory
    requires k < |inv.links| && o < |inv.observations| && inv.links[k].listing < |inv.listings|
  {
    var row := inv.observations[o];
    var i := inv.links[k].listing;
    inv.(links := inv.links[k := TouchLink(inv.links[k], row, o)],
         listings := inv.listings[i := inv.listings[i].(lastSeenAt := Max(inv.listings[i].lastSeenAt, row.observedAt))])
  }

  datatype ValidationStatus = Pending | Passed | Warning | Failed | NotApplicable

  /** The derived badge: confirmed in-unit washer and dryer, validated, resolved. */
  predicate BadgeEligible(laundry: Laundry, validation: ValidationStatus, resolved: bool, humanConfirmed: bool) {
    && laundry == InUnitWasherDryerConfirmed
    && (validation == Passed || (validation == ValidationStatus.NotApplicable && humanConfirmed))
    && resolved
  }

  /** Field assignment; a snippet's laundry is unvalidated, so its badge is derived from PENDING. */
  function Assign(listing: Listing, value: FactValue): Listing {
    match value
    case RentValue(rent) => listing.(rent := rent)
    case LayoutValue(_) => listing
    case LaundryValue(laundry) =>
      listing.(laundry := laundry, badge := BadgeEligible(laundry, ValidationStatus.Pending, true, false))
    case AvailabilityValue(availability) => listing.(availability := availability)
  }

  function KindOf(key: FactKey): EventKind
    requires key != LayoutKey
  {
    match key
    case RentKey => PriceChanged
    case AvailabilityKey => AvailabilityChanged
    case LaundryKey => LaundryChanged
  }

  function ChangeEvent(listing: nat, key: FactKey, o: nat, at: Time, before: FactValue, after: FactValue): Event
    requires key != LayoutKey
  {
    Event(EventKey(listing, KindOf(key), ByObservation(o)), at, Some(before), Some(after))
  }

  /** One field of the update: kept when not stated or equal, held by an override, otherwise evented and assigned. */
  function ApplyField(inv: Inventory, i: nat, o: nat, key: FactKey): (r: Inventory)
    requires i < |inv.listings| && o < |inv.observations| && key != LayoutKey
    ensures |r.listings| == |inv.listings| && inv.events <= r.events
    ensures r == inv.(listings := r.listings, events := r.events, facts := r.facts)
  {
    var row := inv.observations[o];
    var proposed := Proposed(row.parsed, key);
    var held := FieldOf(inv.listings[i], key);
    if proposed.None? || proposed.value == held then
      inv
    else
      match ActiveOverride(inv.facts.overrides, i, FactField(key))
      case Some(override) =>
        if override.value == proposed then inv
        else inv.(facts := RaiseConflict(inv.facts, override, i, key, proposed.value))
      case None =>
        inv.(events := Emit(inv.events, ChangeEvent(i, key, o, row.observedAt, held, proposed.value)),
             listings := inv.listings[i := Assign(inv.listings[i], proposed.value)])
  }

  function ApplyFields(inv: Inventory, i: nat, o: nat): (r: Inventory)
    requires i < |inv.listings| && o < |inv.observations|
    ensures |r.listings| == |inv.listings| && inv.events <= r.events
    ensures r == inv.(listings := r.listings, events := r.events, facts := r.facts)
  {
    ApplyField(ApplyField(ApplyField(inv, i, o, RentKey), i, o, AvailabilityKey), i, o, LaundryKey)
  }

  /** The kinds of the events a later state added, in order. */
  function KindsSince(before: seq<Event>, after: seq<Event>): seq<EventKind>
    requires before <= after
  {
    seq(|after| - |before|, n requires 0 <= n < |after| - |before| => after[|before| + n].key.kind)
  }

  function StampChange(inv: Inventory, i: nat, at: Time, emitted: seq<EventKind>): Inventory
    requires i < |inv.listings|
  {
    if emitted == [] then inv
    else inv.(listings := inv.listings[i := inv.listings[i].(lastMaterialChangeAt := at)])
  }

  function UpdateExisting(inv: Inventory, o: nat, k: nat, now: Time): Effect
    requires o < |inv.observations| && k < |inv.links|
    requires inv.links[k].listing < |inv.listings| && inv.links[k].latestObservation < |inv.observations|
  {
    var row := inv.observations[o];
    var i := inv.links[k].listing;
    var latest := inv.links[k].latestObservation;
    if latest == o then
      Effect(inv, Outcome(Unchanged, Some(i), Some(k), []))
    else
      var touched := Touch(inv, k, o);
      if inv.observations[latest].contentHash == row.contentHash then
        Effect(touched, Outcome(Unchanged, Some(i), Some(k), []))
      else
        var recorded := touched.(facts := RecordListingFacts(touched.facts, i, row, o, now));
        var applied := ApplyFields(recorded, i, o);
        var emitted := KindsSince(inv.events, applied.events);
        Effect(StampChange(applied, i, row.observedAt, emitted),
               Outcome(if emitted == [] then Unchanged else MaterialChange, Some(i), Some(k), emitted))
  }

  // ---------------------------------------------------------------- the whole transaction

  predicate Usable(row: Observation) {
    row.parseStatus == ParseStatus.Valid || row.parseStatus == ParseStatus.Partial
  }

  function ProcessObservation(inv: Inventory, o: nat, via: DiscoveryMethod, now: Time): Result<Effect>
    requires ForeignKeys(inv)
  {
    if o >= |inv.observations| then
      Failure(RowNotFound)
    else if !Usable(inv.observations[o]) then
      Success(Effect(inv, Outcome(Classification.Unresolved, None, None, [])))
    else
      var link :- OneOrNone(MatchingLinks(inv.links, inv.observations[o]));
      if link.None? then CreateCanonical(inv, o, via, now)
      else Success(UpdateExisting(inv, o, link.value, now))
  }

  /** The committed state: a failed transaction is rolled back. */
  function Normalized(inv: Inventory, o: nat, via: DiscoveryMethod, now: Time): Inventory
    requires ForeignKeys(inv)
  {
    var r := ProcessObservation(inv, o, via, now);
    if r.Success? then r.value.after else inv
  }
}
