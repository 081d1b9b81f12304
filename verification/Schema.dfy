/** The canonical tables. A table is a sequence of rows, a row's id is its position, and no row is ever deleted. */
module Schema {
  import opened Prelude

  datatype LayoutClass = Studio | OneBedroom | TwoBedroom | OutOfScope | Unknown | Conflicting

  datatype Availability =
    | Available | AvailableFuture | ApplicationPending | NoLongerAvailable | SourceRemoved | Unknown | Conflicting

  datatype Laundry =
    | InUnitWasherDryerConfirmed | InUnitWasherOnly | InUnitDryerOnly | InUnitHookupOnly
    | BuildingSharedLaundry | OffsiteOrNearbyLaundry | NoLaundryStated | ExplicitlyNoLaundry
    | Conflicting | Unknown

  datatype Lifecycle =
    | Candidate | Active | Missing | Inactive | Reappeared | Excluded | Merged | ReviewRequired

  datatype CanonicalResolution = Resolved | Provisional | Conflicting | ReviewRequired

  datatype LinkStatus = Active | Missing | Removed | Superseded | Conflicting

  datatype DiscoveryMethod = Direct | SearchIndex | ManualImport | Unknown

  datatype IdentityMethod = SourceNativeContinuity | ExactAddressAndUnit | StrongMultiField

  datatype Precision =
    | RooftopOrEntrance | Building | Parcel | InterpolatedAddress | Street
    | PostalCode | Neighborhood | City | Unknown

  datatype Boundary = InScope | OutOfScope | Unresolved

  datatype ParseStatus = Valid | Partial | Invalid | Blocked

  datatype SourceRunStatus = Pending | Running | Healthy | Degraded | Failed | Blocked | Cancelled

  // ---------------------------------------------------------------- places

  /** `resolved` rows carry a street line; the others are placeholders for withheld addresses. */
  datatype Address = Address(
    resolved: bool, fingerprint: string, located: bool, precision: Precision, boundary: Boundary)

  datatype Building = Building(address: nat)

  datatype Unit = Unit(building: nat, fingerprint: string, layout: LayoutClass)

  datatype Places = Places(addresses: seq<Address>, buildings: seq<Building>, units: seq<Unit>)

  // ---------------------------------------------------------------- observations and runs

  /** What the adapter parsed; an empty address or unit text reads as absent, any other as its match key. */
  datatype Parsed = Parsed(
    addressKey: Option<string>, unitKey: Option<string>, layout: LayoutClass,
    rent: Option<nat>, availability: Availability, laundry: Laundry)

  datatype Observation = Observation(
    source: nat, run: nat, nativeId: Option<string>, url: string,
    observedAt: Time, contentHash: string, parseStatus: ParseStatus, parsed: Parsed)

  /** Only a healthy run that is not search-discovered counts absence as evidence. */
  predicate GatePasses(status: SourceRunStatus, via: DiscoveryMethod) {
    status == SourceRunStatus.Healthy && via != DiscoveryMethod.SearchIndex
  }

  datatype SourceRun = SourceRun(source: nat, startedAt: Time, status: SourceRunStatus, gatePassed: Option<bool>)

  // ---------------------------------------------------------------- listings and links

  datatype Listing = Listing(
    building: nat, unit: Option<nat>, layout: LayoutClass, rent: Option<nat>,
    availability: Availability, laundry: Laundry, badge: bool,
    lifecycle: Lifecycle, resolution: CanonicalResolution,
    firstSeenAt: Time, lastSeenAt: Time, lastMaterialChangeAt: Time, inactiveAt: Option<Time>)

  datatype Link = Link(
    listing: nat, source: nat, nativeId: Option<string>, url: string,
    firstObservation: nat, latestObservation: nat, firstSeenAt: Time, lastSeenAt: Time,
    status: LinkStatus, discovery: DiscoveryMethod, identity: IdentityMethod)

  datatype Merge = Merge(source: nat, target: nat, moved: seq<nat>, performedAt: Time, reversedAt: Option<Time>)

  datatype CandidateStatus = Pending | AutoMerged | ConfirmedDuplicate | ConfirmedDistinct | Deferred

  datatype DuplicateCandidate = DuplicateCandidate(a: nat, b: nat, rentDelta: nat, status: CandidateStatus)

  // ---------------------------------------------------------------- facts

  datatype FactKey = RentKey | LayoutKey | LaundryKey | AvailabilityKey

  datatype FactValue =
    | RentValue(rent: Option<nat>)
    | LayoutValue(layout: LayoutClass)
    | LaundryValue(laundry: Laundry)
    | AvailabilityValue(availability: Availability)

  datatype ValueStatus = Asserted | Unknown | NotStated | NotApplicable | Negative | Conflicting

  datatype Assertion = Assertion(
    entity: nat, key: FactKey, value: FactValue, valueStatus: ValueStatus, observation: nat)

  datatype ResolutionStatus = Resolved | Unknown

  datatype Resolution = Resolution(
    entity: nat, key: FactKey, assertion: nat, status: ResolutionStatus, supersededAt: Option<Time>)

  datatype OverrideField = FactField(key: FactKey) | LifecycleField

  datatype OverrideStatus = Active | Superseded | Revoked | Invalidated

  datatype Override = Override(
    entity: nat, field: OverrideField, value: Option<FactValue>, status: OverrideStatus, reviewOnConflict: bool)

  datatype IssueKind =
    | Conflict(key: FactKey, incoming: FactValue)
    | PossibleDuplicate(candidate: nat)
    | MassInactivation(proposed: nat, cap: nat)

  datatype IssueStatus = Open | Acknowledged | Resolved | Dismissed

  datatype Issue = Issue(entity: nat, kind: IssueKind, status: IssueStatus)

  datatype Facts = Facts(
    assertions: seq<Assertion>, resolutions: seq<Resolution>, overrides: seq<Override>, issues: seq<Issue>)

  // ---------------------------------------------------------------- events

  datatype EventKind =
    | Created | Activated | PriceChanged | AvailabilityChanged | LaundryChanged
    | MissingStarted | Inactivated | Excluded | Merged

  /** The last part of an idempotency key: what the event is tied to. */
  datatype Cause = ByObservation(observation: nat) | ByTarget(target: nat) | ByRun(run: nat) | ByRule(rule: string)

  datatype EventKey = EventKey(listing: nat, kind: EventKind, cause: Cause)

  datatype Event = Event(key: EventKey, time: Time, before: Option<FactValue>, after: Option<FactValue>)

  predicate HasKey(events: seq<Event>, key: EventKey) {
    exists e :: 0 <= e < |events| && events[e].key == key
  }

  /** INSERT ... ON CONFLICT (idempotency_key) DO NOTHING. */
  function Emit(events: seq<Event>, event: Event): seq<Event> {
    if HasKey(events, event.key) then events else events + [event]
  }

  // ---------------------------------------------------------------- the whole state

  datatype Inventory = Inventory(
    places: Places,
    observations: seq<Observation>,
    runs: seq<SourceRun>,
    listings: seq<Listing>,
    links: seq<Link>,
    events: seq<Event>,
    facts: Facts,
    candidates: seq<DuplicateCandidate>,
    merges: seq<Merge>)

  const EMPTY_INVENTORY :=
    Inventory(Places([], [], []), [], [], [], [], [], Facts([], [], [], []), [], [])

  /** Foreign keys: every reference names an existing row. */
  predicate PlacesRefer(p: Places) {
    && (forall b :: 0 <= b < |p.buildings| ==> p.buildings[b].address < |p.addresses|)
    && (forall u :: 0 <= u < |p.units| ==> p.units[u].building < |p.buildings|)
  }

  predicate ListingRefers(listing: Listing, p: Places) {
    listing.building < |p.buildings| && (listing.unit.Some? ==> listing.unit.value < |p.units|)
  }

  predicate LinkRefers(link: Link, inv: Inventory) {
    && link.listing < |inv.listings|
    && link.firstObservation < |inv.observations|
    && link.latestObservation < |inv.observations|
  }

  predicate EventRefers(event: Event, inv: Inventory) {
    && event.key.listing < |inv.listings|
    && (event.key.cause.ByObservation? ==> event.key.cause.observation < |inv.observations|)
  }

  predicate MergeRefers(merge: Merge, inv: Inventory) {
    && merge.source < |inv.listings| && merge.target < |inv.listings|
    && (forall k :: 0 <= k < |merge.moved| ==> merge.moved[k] < |inv.links|)
  }

  predicate CandidateRefers(candidate: DuplicateCandidate, inv: Inventory) {
    candidate.a < candidate.b < |inv.listings|
  }

  predicate ForeignKeys(inv: Inventory) {
    && PlacesRefer(inv.places)
    && (forall o :: 0 <= o < |inv.observations| ==> inv.observations[o].run < |inv.runs|)
    && (forall i :: 0 <= i < |inv.listings| ==> ListingRefers(inv.listings[i], inv.places))
    && (forall k :: 0 <= k < |inv.links| ==> LinkRefers(inv.links[k], inv))
    && (forall e :: 0 <= e < |inv.events| ==> EventRefers(inv.events[e], inv))
    && (forall m :: 0 <= m < |inv.merges| ==> MergeRefers(inv.merges[m], inv))
    && (forall c :: 0 <= c < |inv.candidates| ==> CandidateRefers(inv.candidates[c], inv))
  }

  // ---------------------------------------------------------------- fields as facts

  /** What an observation states about a fact; UNKNOWN and missing values state nothing. */
  function Proposed(parsed: Parsed, key: FactKey): Option<FactValue> {
    match key
    case RentKey => if parsed.rent.Some? then Some(RentValue(parsed.rent)) else None
    case LayoutKey => if parsed.layout != LayoutClass.Unknown then Some(LayoutValue(parsed.layout)) else None
    case LaundryKey => if parsed.laundry != Laundry.Unknown then Some(LaundryValue(parsed.laundry)) else None
    case AvailabilityKey =>
      if parsed.availability != Availability.Unknown then Some(AvailabilityValue(parsed.availability)) else None
  }

  /** The value a new listing takes from its first observation, stated or not. */
  function InitialValue(parsed: Parsed, key: FactKey): FactValue {
    match key
    case RentKey => RentValue(parsed.rent)
    case LayoutKey => LayoutValue(parsed.layout)
    case LaundryKey => LaundryValue(parsed.laundry)
    case AvailabilityKey => AvailabilityValue(parsed.availability)
  }

  function FieldOf(listing: Listing, key: FactKey): FactValue {
    match key
    case RentKey => RentValue(listing.rent)
    case LayoutKey => LayoutValue(listing.layout)
    case LaundryKey => LaundryValue(listing.laundry)
    case AvailabilityKey => AvailabilityValue(listing.availability)
  }

  // ---------------------------------------------------------------- the session

  /** The mutable tables behind a database session. */
  class Database {
    var addresses: seq<Address>
    var buildings: seq<Building>
    var units: seq<Unit>
    var observations: seq<Observation>
    var runs: seq<SourceRun>
    var listings: seq<Listing>
    var links: seq<Link>
    var events: seq<Event>
    var assertions: seq<Assertion>
    var resolutions: seq<Resolution>
    var overrides: seq<Override>
    var issues: seq<Issue>
    var candidates: seq<DuplicateCandidate>
    var merges: seq<Merge>

    ghost function PlaceTables(): Places
      reads this`addresses, this`buildings, this`units
    {
      Places(addresses, buildings, units)
    }

    ghost function FactTables(): Facts
      reads this`assertions, this`resolutions, this`overrides, this`issues
    {
      Facts(assertions, resolutions, overrides, issues)
    }

    ghost function State(): Inventory
      reads this
    {
      Inventory(PlaceTables(), observations, runs, listings, links, events, FactTables(), candidates, merges)
    }

    constructor ()
      ensures State() == EMPTY_INVENTORY
    {
      addresses, buildings, units := [], [], [];
      observations, runs, listings, links := [], [], [], [];
      events, assertions, resolutions, overrides := [], [], [], [];
      issues, candidates, merges := [], [], [];
    }

    method EmitEvent(event: Event) returns (inserted: bool)
      modifies this`events
      ensures events == Emit(old(events), event)
      ensures inserted == !HasKey(old(events), event.key)
    {
      inserted := !HasKey(events, event.key);
      if inserted {
        events := events + [event];
      }
    }
  }
}
