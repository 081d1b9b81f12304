/** Which listing an observation of an unknown identity goes to, read off the columns of the tables. */
module Attachments {
  import opened Prelude
  import opened Schema
  import opened Normalization
  import opened Engine
  import opened Shapes

  /** A query has no answer, one answer or several: when no row, one row alone, or two rows satisfy it. */
  lemma WhereIs<T>(rows: seq<T>, p: T -> bool)
    ensures Where(rows, p) == [] <==> forall j :: 0 <= j < |rows| ==> !p(rows[j])
    ensures forall i: nat :: Where(rows, p) == [i] <==>
              i < |rows| && p(rows[i]) && forall j :: 0 <= j < |rows| && j != i ==> !p(rows[j])
    ensures |Where(rows, p)| > 1 <==> exists i, j :: 0 <= i < j < |rows| && p(rows[i]) && p(rows[j])
  {
    var ids := Where(rows, p);
    assert forall j: nat :: j < |rows| && p(rows[j]) ==> j in ids;
    assert |ids| > 1 ==> ids[0] < ids[1] && p(rows[ids[0]]) && p(rows[ids[1]]);
    assert |ids| > 0 ==> p(rows[ids[0]]);
    if i, j :| 0 <= i < j < |rows| && p(rows[i]) && p(rows[j]) {
      assert i in ids && j in ids;
    }
    forall i: nat | i < |rows| && p(rows[i]) && forall j :: 0 <= j < |rows| && j != i ==> !p(rows[j])
      ensures ids == [i]
    {
      assert i in ids;
      assert forall n :: 0 <= n < |ids| ==> ids[n] == i;
    }
  }

  // ---------------------------------------------------------------- address and building

  /** The address of the match key, or a placeholder named after the URL: found when there is one, else added. */
  lemma AddressFor(p: Places, row: Observation)
    ensures
      var r := ResolveAddress(p, row);
      match row.parsed.addressKey
      case None =>
        && r.Success? && r.value.1 == |p.addresses|
        && r.value.0 == p.(addresses := p.addresses
             + [Address(false, "unresolved:" + row.url, false, Precision.Unknown, Boundary.Unresolved)])
      case Some(key) =>
        && (r.Failure? <==>
              exists a, b ::
                0 <= a < b < |p.addresses| && p.addresses[a].fingerprint == key && p.addresses[b].fingerprint == key)
        && (r.Success? ==>
              if exists a :: 0 <= a < |p.addresses| && p.addresses[a].fingerprint == key
              then r.value.0 == p && r.value.1 < |p.addresses| && p.addresses[r.value.1].fingerprint == key
              else r.value.1 == |p.addresses|
                   && r.value.0 == p.(addresses := p.addresses
                        + [Address(true, key, false, Precision.Unknown, Boundary.Unresolved)]))
  {
    hide AddressesWith;
    if row.parsed.addressKey.Some? {
      AddressesAnswer(p.addresses, row.parsed.addressKey.value);
    }
  }

  lemma AddressesAnswer(addresses: seq<Address>, key: string)
    ensures
      var ids := AddressesWith(addresses, key);
      && (|ids| > 1 <==>
            exists a, b ::
              0 <= a < b < |addresses| && addresses[a].fingerprint == key && addresses[b].fingerprint == key)
      && (ids == [] <==> !exists a :: 0 <= a < |addresses| && addresses[a].fingerprint == key)
      && (|ids| > 0 ==> ids[0] < |addresses| && addresses[ids[0]].fingerprint == key)
  {
    WhereIs(addresses, (a: Address) => a.fingerprint == key);
  }

  /** The building of an address: found when there is one, added when there is none, an error when there are two. */
  lemma BuildingFor(p: Places, address: nat)
    ensures
      var r := ResolveBuilding(p, address);
      && (r.Failure? <==>
            exists a, b ::
              0 <= a < b < |p.buildings| && p.buildings[a].address == address && p.buildings[b].address == address)
      && (r.Success? ==>
            if exists b :: 0 <= b < |p.buildings| && p.buildings[b].address == address
            then r.value.0 == p && r.value.1 < |p.buildings| && p.buildings[r.value.1].address == address
            else r.value.1 == |p.buildings|
                 && r.value.0 == p.(buildings := p.buildings + [Building.Building(address)]))
  {
    WhereIs(p.buildings, (b: Building) => b.address == address);
  }

  // ---------------------------------------------------------------- known identities

  /**
   * An observation updates a link if and only if it is usable and this link alone is of its source and carries its
   * native id, or its URL when it has none.
   */
  lemma UpdatesLinkIff(inv: Inventory, o: nat, k: nat)
    requires ForeignKeys(inv) && o < |inv.observations|
    ensures CaseOf(inv, o) == Updating(k) <==>
      var row := inv.observations[o];
      && row.parseStatus in {ParseStatus.Valid, ParseStatus.Partial} && k < |inv.links|
      && (forall j :: 0 <= j < |inv.links| ==>
            (inv.links[j].source == row.source
             && (if row.nativeId.Some? then inv.links[j].nativeId == row.nativeId else inv.links[j].url == row.url)
             <==> j == k))
  {
    hide ForeignKeys, Locate, CreatingCase, MatchingLinks;
    var row := inv.observations[o];
    MatchesAlone(inv.links, row, k);
    CreatingIsNoUpdate(inv, o);
  }

  lemma MatchesAlone(links: seq<Link>, row: Observation, k: nat)
    ensures MatchingLinks(links, row) == [k] <==>
      && k < |links|
      && (forall j :: 0 <= j < |links| ==>
            (links[j].source == row.source
             && (if row.nativeId.Some? then links[j].nativeId == row.nativeId else links[j].url == row.url)
             <==> j == k))
  {
    hide Matches;
    WhereIs(links, (l: Link) => Matches(l, row));
    assert MatchingLinks(links, row) == [k] <==>
      k < |links| && Matches(links[k], row) && forall j :: 0 <= j < |links| && j != k ==> !Matches(links[j], row);
    forall j | 0 <= j < |links|
      ensures Matches(links[j], row) <==>
                && links[j].source == row.source
                && (if row.nativeId.Some? then links[j].nativeId == row.nativeId else links[j].url == row.url)
    {
      MatchColumns(links[j], row);
    }
  }

  lemma MatchColumns(link: Link, row: Observation)
    ensures Matches(link, row) <==>
      && link.source == row.source
      && (if row.nativeId.Some? then link.nativeId == row.nativeId else link.url == row.url)
  {
  }

  lemma CreatingIsNoUpdate(inv: Inventory, o: nat)
    requires o < |inv.observations|
    ensures forall places, building :: !CreatingCase(inv, places, o, building).Updating?
  {
    hide LatestSeen, StrongMultiFieldMatch;
  }

  // ---------------------------------------------------------------- new links

  /** The one new link of a processing copies its observation and is ACTIVE; no link carried its identity before. */
  lemma NewLinkColumns(inv: Inventory, o: nat, via: DiscoveryMethod, now: Time)
    requires ForeignKeys(inv)
    requires |Normalized(inv, o, via, now).links| > |inv.links|
    ensures o < |inv.observations| && |Normalized(inv, o, via, now).links| == |inv.links| + 1
    ensures
      var row, link := inv.observations[o], Normalized(inv, o, via, now).links[|inv.links|];
      && row.parseStatus in {ParseStatus.Valid, ParseStatus.Partial}
      && link.source == row.source && link.nativeId == row.nativeId && link.url == row.url
      && link.firstObservation == o && link.latestObservation == o
      && link.firstSeenAt == row.observedAt && link.lastSeenAt == row.observedAt
      && link.status == LinkStatus.Active && link.discovery == via
      && (forall k :: 0 <= k < |inv.links| && inv.links[k].source == row.source ==>
            if row.nativeId.Some? then inv.links[k].nativeId != row.nativeId else inv.links[k].url != row.url)
  {
    hide AddListing, UpdateExisting, PlacesGrow, PlacesRefer, Normalized, CaseOf, ForeignKeys, RecordListingFacts, Emit,
      FirstListing, MatchingLinks;
    NormalizedByCase(inv, o, via, now);
    match CaseOf(inv, o)
    case Nothing =>
    case Attaching(places, listing, identity) =>
      CreatedRow(inv, o);
    case Adding(places, building, unit) =>
      AddShape(inv.(places := places), o, building, unit, via, now);
      CreatedRow(inv, o);
    case Updating(k) =>
      UpdateShape(inv, o, k, now);
  }

  lemma CreatedRow(inv: Inventory, o: nat)
    requires CaseOf(inv, o).Attaching? || CaseOf(inv, o).Adding?
    ensures o < |inv.observations|
    ensures inv.observations[o].parseStatus in {ParseStatus.Valid, ParseStatus.Partial}
    ensures forall k :: 0 <= k < |inv.links| ==> !Matches(inv.links[k], inv.observations[o])
  {
    hide Locate, CreatingCase, Matches;
    WhereIs(inv.links, (l: Link) => Matches(l, inv.observations[o]));
  }

  // ---------------------------------------------------------------- the listing of a new link

  /** A listing as its first observation opens it. */
  predicate OpenedBy(listing: Listing, row: Observation, building: nat, unit: Option<nat>) {
    && listing.building == building && listing.unit == unit && listing.layout == row.parsed.layout
    && listing.rent == row.parsed.rent && listing.availability == row.parsed.availability
    && listing.laundry == row.parsed.laundry && !listing.badge
    && listing.lifecycle == Lifecycle.Candidate && listing.resolution == CanonicalResolution.Provisional
    && listing.firstSeenAt == row.observedAt && listing.lastSeenAt == row.observedAt
    && listing.lastMaterialChangeAt == row.observedAt && listing.inactiveAt == None
  }

  /** The observation opened a listing of its own, with its first link and its CREATED event. */
  predicate OpensListing(inv: Inventory, r: Inventory, o: nat, building: nat, unit: Option<nat>)
    requires o < |inv.observations|
  {
    && |r.listings| == |inv.listings| + 1 && r.listings[..|inv.listings|] == inv.listings
    && OpenedBy(r.listings[|inv.listings|], inv.observations[o], building, unit)
    && |r.links| == |inv.links| + 1 && r.links[..|inv.links|] == inv.links
    && r.links[|inv.links|].listing == |inv.listings| && r.links[|inv.links|].identity == SourceNativeContinuity
    && r.events == inv.events
         + [Event(EventKey(|inv.listings|, EventKind.Created, ByObservation(o)),
                  inv.observations[o].observedAt, None, None)]
  }

  /** The observation was attached to listing `i`, whose stamp it raises at most; no listing and no event is added. */
  predicate AttachesTo(inv: Inventory, r: Inventory, o: nat, i: nat, identity: IdentityMethod)
    requires o < |inv.observations|
  {
    && i < |inv.listings| && |r.listings| == |inv.listings| && r.events == inv.events
    && (forall j :: 0 <= j < |inv.listings| && j != i ==> r.listings[j] == inv.listings[j])
    && r.listings[i] == inv.listings[i].(lastSeenAt := r.listings[i].lastSeenAt)
    && r.listings[i].lastSeenAt == (if inv.observations[o].observedAt > inv.listings[i].lastSeenAt
                                    then inv.observations[o].observedAt else inv.listings[i].lastSeenAt)
    && |r.links| == |inv.links| + 1 && r.links[..|inv.links|] == inv.links
    && r.links[|inv.links|].listing == i && r.links[|inv.links|].identity == identity
  }

  /** Usable, and no link carries its identity. */
  predicate IsNewcomer(inv: Inventory, o: nat) {
    && o < |inv.observations| && inv.observations[o].parseStatus in {ParseStatus.Valid, ParseStatus.Partial}
    && (forall k :: 0 <= k < |inv.links| && inv.links[k].source == inv.observations[o].source ==>
          if inv.observations[o].nativeId.Some? then inv.links[k].nativeId != inv.observations[o].nativeId
          else inv.links[k].url != inv.observations[o].url)
  }

  lemma NewcomerIsCreated(inv: Inventory, o: nat)
    requires ForeignKeys(inv) && IsNewcomer(inv, o) && Locate(inv.places, inv.observations[o]).Success?
    ensures
      var (places, building) := Locate(inv.places, inv.observations[o]).value;
      CaseOf(inv, o) == CreatingCase(inv, places, o, building)
  {
    hide ForeignKeys, Locate, CreatingCase;
    WhereIs(inv.links, (l: Link) => Matches(l, inv.observations[o]));
  }

  lemma OpeningColumns(inv: Inventory, o: nat, via: DiscoveryMethod, now: Time)
    requires ForeignKeys(inv) && CaseOf(inv, o).Adding? && o < |inv.observations|
    ensures OpensListing(inv, Normalized(inv, o, via, now), o, CaseOf(inv, o).building, CaseOf(inv, o).unit)
    ensures Normalized(inv, o, via, now).places == CaseOf(inv, o).places
  {
    hide AddListing, PlacesGrow, PlacesRefer, Normalized, CaseOf, RecordListingFacts, MatchingLinks;
    NormalizedByCase(inv, o, via, now);
    var c := CaseOf(inv, o);
    AddShape(inv.(places := c.places), o, c.building, c.unit, via, now);
    assert forall e :: 0 <= e < |inv.events| ==> EventRefers(inv.events[e], inv);
  }

  lemma AttachingColumns(inv: Inventory, o: nat, via: DiscoveryMethod, now: Time)
    requires ForeignKeys(inv) && CaseOf(inv, o).Attaching? && o < |inv.observations|
    ensures AttachesTo(inv, Normalized(inv, o, via, now), o, CaseOf(inv, o).listing, CaseOf(inv, o).identity)
    ensures Normalized(inv, o, via, now).places == CaseOf(inv, o).places
  {
    hide PlacesGrow, PlacesRefer, Normalized, CaseOf, MatchingLinks, ForeignKeys;
    NormalizedByCase(inv, o, via, now);
  }

  /**
   * A newcomer without a unit label is attached if and only if it states layout and rent, and exactly one listing of
   * its building has that layout, exactly that rent, no unit, is neither MERGED nor INACTIVE and has no link of its
   * source: to that listing. Otherwise it opens a listing of its own.
   */
  lemma UnlabelledGoesTo(inv: Inventory, o: nat, via: DiscoveryMethod, now: Time)
    requires ForeignKeys(inv) && IsNewcomer(inv, o) && Locate(inv.places, inv.observations[o]).Success?
    requires inv.observations[o].parsed.unitKey == None
    ensures
      var row, building := inv.observations[o], Locate(inv.places, inv.observations[o]).value.1;
      var r := Normalized(inv, o, via, now);
      var matches := set j: nat | j < |inv.listings|
        && inv.listings[j].building == building
        && inv.listings[j].layout == row.parsed.layout && inv.listings[j].rent == row.parsed.rent
        && inv.listings[j].unit == None && inv.listings[j].lifecycle !in {Lifecycle.Merged, Lifecycle.Inactive}
        && (forall k :: 0 <= k < |inv.links| && inv.links[k].listing == j ==> inv.links[k].source != row.source);
      if row.parsed.layout !in {LayoutClass.Unknown, LayoutClass.Conflicting} && row.parsed.rent.Some?
        && exists i: nat :: matches == {i}
      then exists i: nat :: matches == {i} && AttachesTo(inv, r, o, i, StrongMultiField)
      else OpensListing(inv, r, o, building, None)
  {
    hide ForeignKeys, Normalized, Locate, OpensListing, AttachesTo, StrongMultiFieldMatch, CaseOf;
    var row := inv.observations[o];
    var (places, building) := Locate(inv.places, row).value;
    NewcomerIsCreated(inv, o);
    var at := inv.(places := places);
    forall i: nat {
      StrongMatchIff(at, building, row, i);
    }
    if CaseOf(inv, o).Adding? {
      OpeningColumns(inv, o, via, now);
    } else {
      AttachingColumns(inv, o, via, now);
    }
  }

  /** The units of a building that carry a label's key. */
  function UnitsLabelled(places: Places, building: nat, key: string): set<nat> {
    set u: nat | u < |places.units| && places.units[u].building == building && places.units[u].fingerprint == key
  }

  /** The unmerged listings of a unit. */
  function LiveIn(listings: seq<Listing>, unit: nat): set<nat> {
    set j: nat | j < |listings| && listings[j].unit == Some(unit) && listings[j].lifecycle != Lifecycle.Merged
  }

  predicate SeenLast(listings: seq<Listing>, ids: set<nat>, i: nat) {
    && i in ids && i < |listings|
    && (forall j :: j in ids && j < |listings| ==> listings[j].lastSeenAt <= listings[i].lastSeenAt)
  }

  /**
   * A newcomer with a unit label goes by the unit of its building and label: two such units are an error; a new unit,
   * or one without an unmerged listing, gets a listing opened in it; otherwise it is attached to the unmerged listing
   * of the unit that was seen last.
   */
  lemma LabelledGoesTo(inv: Inventory, o: nat, via: DiscoveryMethod, now: Time)
    requires ForeignKeys(inv) && IsNewcomer(inv, o) && Locate(inv.places, inv.observations[o]).Success?
    requires inv.observations[o].parsed.unitKey.Some?
    ensures
      var row, key := inv.observations[o], inv.observations[o].parsed.unitKey.value;
      var (places, building) := Locate(inv.places, inv.observations[o]).value;
      var r := Normalized(inv, o, via, now);
      var units := UnitsLabelled(places, building, key);
      && (units == {} ==>
            && r.places == places.(units := places.units + [Unit(building, key, row.parsed.layout)])
            && OpensListing(inv, r, o, building, Some(|places.units|)))
      && (forall u :: u in units && units == {u} ==>
            && r.places == places
            && (LiveIn(inv.listings, u) == {} ==> OpensListing(inv, r, o, building, Some(u)))
            && (LiveIn(inv.listings, u) != {} ==> exists i ::
                  SeenLast(inv.listings, LiveIn(inv.listings, u), i)
                  && AttachesTo(inv, r, o, i, ExactAddressAndUnit)))
      && (|units| > 1 ==> r == inv)
  {
    hide ForeignKeys, Normalized, Locate, OpensListing, AttachesTo, CaseOf, UnitCase, UnitsLabelled, LiveIn, SeenLast;
    var key := inv.observations[o].parsed.unitKey.value;
    var (places, building) := Locate(inv.places, inv.observations[o]).value;
    NewcomerIsCreated(inv, o);
    UnitDecides(inv, places, o, building, key);
    UnitIsNoUpdate(inv, places, o, building, key);
    if CaseOf(inv, o).Adding? {
      OpeningColumns(inv, o, via, now);
    } else if CaseOf(inv, o).Attaching? {
      AttachingColumns(inv, o, via, now);
    } else {
      NormalizedByCase(inv, o, via, now);
    }
  }

  lemma UnitIsNoUpdate(inv: Inventory, places: Places, o: nat, building: nat, key: string)
    requires o < |inv.observations|
    ensures !UnitCase(inv, places, o, building, key).Updating?
  {
    hide LatestSeen;
  }

  /** How many rows a query answers, as a list and as a set. */
  lemma SizeOfAnswer(ids: seq<nat>, elements: set<nat>)
    requires forall a, b :: 0 <= a < b < |ids| ==> ids[a] < ids[b]
    requires forall j: nat :: j in elements <==> j in ids
    ensures ids == [] <==> elements == {}
    ensures forall i :: ids == [i] <==> elements == {i}
    ensures |elements| == |ids|
  {
    forall i: nat {
      OnlyElement(ids, i);
    }
    assert (set j | j in ids) == elements;
    assert ids != [] ==> ids[0] in elements;
    CountOfAnswer(ids, elements);
  }

  lemma {:induction false} CountOfAnswer(ids: seq<nat>, elements: set<nat>)
    requires forall a, b :: 0 <= a < b < |ids| ==> ids[a] < ids[b]
    requires elements == set j | j in ids
    ensures |elements| == |ids|
  {
    if ids != [] {
      var front, last := ids[..|ids| - 1], ids[|ids| - 1];
      CountOfAnswer(front, set j | j in front);
      assert ids == front + [last];
      assert elements == (set j | j in front) + {last};
    }
  }

  lemma UnitDecides(inv: Inventory, places: Places, o: nat, building: nat, key: string)
    requires o < |inv.observations|
    ensures
      var c := UnitCase(inv, places, o, building, key);
      var units := UnitsLabelled(places, building, key);
      && (units == {} ==> c == Adding(
            places.(units := places.units + [Unit(building, key, inv.observations[o].parsed.layout)]),
            building, Some(|places.units|)))
      && (forall u :: u in units && units == {u} ==>
            && (LiveIn(inv.listings, u) == {} ==> c == Adding(places, building, Some(u)))
            && (LiveIn(inv.listings, u) != {} ==>
                  && c.Attaching? && c.places == places && c.identity == ExactAddressAndUnit
                  && SeenLast(inv.listings, LiveIn(inv.listings, u), c.listing)))
      && (|units| > 1 ==> c.Nothing?)
  {
    hide LatestSeen, LiveIn, SeenLast, UnitsAt, ListingsOfUnit, UnitsLabelled;
    var ids := UnitsAt(places.units, building, key);
    var units := UnitsLabelled(places, building, key);
    UnitsAnswer(places, building, key);
    if |ids| == 1 {
      assert ids == [ids[0]];
      LiveAnswer(inv.listings, ids[0]);
    }
  }

  lemma UnitsAnswer(places: Places, building: nat, key: string)
    ensures
      var ids, units := UnitsAt(places.units, building, key), UnitsLabelled(places, building, key);
      (ids == [] <==> units == {}) && (forall u :: ids == [u] <==> units == {u}) && |ids| == |units|
  {
    SizeOfAnswer(UnitsAt(places.units, building, key), UnitsLabelled(places, building, key));
  }

  lemma LiveAnswer(listings: seq<Listing>, unit: nat)
    ensures
      var ids := ListingsOfUnit(listings, unit);
      && (forall a :: 0 <= a < |ids| ==> ids[a] < |listings|)
      && (LatestSeen(listings, ids).None? <==> LiveIn(listings, unit) == {})
      && (LatestSeen(listings, ids).Some? ==>
            SeenLast(listings, LiveIn(listings, unit), LatestSeen(listings, ids).value))
  {
    hide LatestSeen;
    var ids := ListingsOfUnit(listings, unit);
    assert forall j: nat :: j in LiveIn(listings, unit) <==> j in ids;
    assert ids != [] ==> ids[0] in LiveIn(listings, unit);
  }

  // ---------------------------------------------------------------- whatever the branch

  /** The building an observation is located in stands at its address, or at a placeholder of its own. */
  lemma LocatedAt(p: Places, row: Observation)
    requires PlacesRefer(p) && Locate(p, row).Success?
    ensures
      var (q, b) := Locate(p, row).value;
      && b < |q.buildings| && q.buildings[b].address < |q.addresses|
      && (row.parsed.addressKey.Some? ==>
            q.addresses[q.buildings[b].address].fingerprint == row.parsed.addressKey.value)
      && (row.parsed.addressKey.None? ==>
            && q.buildings[b].address == |p.addresses| && b == |p.buildings|
            && q.addresses[|p.addresses|]
                 == Address(false, "unresolved:" + row.url, false, Precision.Unknown, Boundary.Unresolved))
  {
    AddressFor(p, row);
    var (withAddress, address) := ResolveAddress(p, row).value;
    BuildingFor(withAddress, address);
  }

  /** What is not VALID or PARTIAL, not stored, or not to be located changes nothing. */
  lemma ChangesNothing(inv: Inventory, o: nat, via: DiscoveryMethod, now: Time)
    requires ForeignKeys(inv)
    requires
      || o >= |inv.observations|
      || inv.observations[o].parseStatus in {ParseStatus.Invalid, ParseStatus.Blocked}
      || (IsNewcomer(inv, o) && Locate(inv.places, inv.observations[o]).Failure?)
    ensures Normalized(inv, o, via, now) == inv
  {
    hide ForeignKeys, CaseOf, CaseResult, Normalized, IsNewcomer, Locate;
    NormalizedByCase(inv, o, via, now);
    if IsNewcomer(inv, o) {
      NewcomerUnlocated(inv, o);
    } else {
      UnusableIsNothing(inv, o);
    }
    NothingResults(inv, o, via, now);
  }

  lemma NewcomerUnlocated(inv: Inventory, o: nat)
    requires IsNewcomer(inv, o)
    ensures o < |inv.observations|
    ensures inv.observations[o].parseStatus !in {ParseStatus.Invalid, ParseStatus.Blocked}
    ensures Locate(inv.places, inv.observations[o]).Failure? ==> CaseOf(inv, o).Nothing?
  {
    hide Locate, CreatingCase, MatchingLinks;
    NobodyMatches(inv.links, inv.observations[o]);
  }

  lemma NobodyMatches(links: seq<Link>, row: Observation)
    ensures MatchingLinks(links, row) == [] <==>
              forall k :: 0 <= k < |links| && links[k].source == row.source ==>
                if row.nativeId.Some? then links[k].nativeId != row.nativeId else links[k].url != row.url
  {
    WhereIs(links, (l: Link) => Matches(l, row));
  }

  lemma UnusableIsNothing(inv: Inventory, o: nat)
    requires o >= |inv.observations| || inv.observations[o].parseStatus in {ParseStatus.Invalid, ParseStatus.Blocked}
    ensures CaseOf(inv, o).Nothing?
  {
    hide Locate, CreatingCase, MatchingLinks;
  }

  lemma NothingResults(inv: Inventory, o: nat, via: DiscoveryMethod, now: Time)
    requires ForeignKeys(inv)
    ensures CaseResult(inv, o, Nothing, via, now) == inv
  {
    hide ForeignKeys;
  }

  /** A link attached as STRONG_MULTI_FIELD sits on a listing that states the observation's own rent and layout. */
  lemma StrongLinkAgrees(inv: Inventory, o: nat, via: DiscoveryMethod, now: Time)
    requires ForeignKeys(inv)
    ensures
      var r := Normalized(inv, o, via, now);
      |r.links| > |inv.links| && r.links[|inv.links|].identity == StrongMultiField ==>
        && o < |inv.observations| && r.links[|inv.links|].listing < |inv.listings|
        && var row, listing := inv.observations[o], inv.listings[r.links[|inv.links|].listing];
           && listing.rent.Some? && listing.rent == row.parsed.rent && listing.layout == row.parsed.layout
           && listing.layout !in {LayoutClass.Unknown, LayoutClass.Conflicting}
           && listing.unit == None && row.parsed.unitKey == None
           && (forall k :: 0 <= k < |inv.links| && inv.links[k].listing == r.links[|inv.links|].listing ==>
                 inv.links[k].source != row.source)
  {
    hide ForeignKeys, Normalized, Locate, LatestSeen, CaseOf;
    var r := Normalized(inv, o, via, now);
    if |r.links| > |inv.links| {
      NewLinkColumns(inv, o, via, now);
      if !IsNewcomer(inv, o) || Locate(inv.places, inv.observations[o]).Failure? {
        ChangesNothing(inv, o, via, now);
      } else if inv.observations[o].parsed.unitKey.Some? {
        LabelledIsNotStrong(inv, o, via, now);
      } else {
        UnlabelledGoesTo(inv, o, via, now);
        if r.links[|inv.links|].identity == StrongMultiField {
          var i: nat :| AttachesTo(inv, r, o, i, StrongMultiField) && (set j: nat | j < |inv.listings|
            && inv.listings[j].building == Locate(inv.places, inv.observations[o]).value.1
            && inv.listings[j].layout == inv.observations[o].parsed.layout
            && inv.listings[j].rent == inv.observations[o].parsed.rent
            && inv.listings[j].unit == None && inv.listings[j].lifecycle !in {Lifecycle.Merged, Lifecycle.Inactive}
            && (forall k :: 0 <= k < |inv.links| && inv.links[k].listing == j ==>
                  inv.links[k].source != inv.observations[o].source)) == {i};
        }
      }
    }
  }

  lemma LabelledIsNotStrong(inv: Inventory, o: nat, via: DiscoveryMethod, now: Time)
    requires ForeignKeys(inv) && IsNewcomer(inv, o) && Locate(inv.places, inv.observations[o]).Success?
    requires inv.observations[o].parsed.unitKey.Some?
    ensures
      var r := Normalized(inv, o, via, now);
      |r.links| > |inv.links| ==> r.links[|inv.links|].identity != StrongMultiField
  {
    hide ForeignKeys, Normalized, Locate, LatestSeen;
    NewcomerIsCreated(inv, o);
    hide CaseOf;
    if CaseOf(inv, o).Attaching? {
      AttachingColumns(inv, o, via, now);
    } else if CaseOf(inv, o).Adding? {
      OpeningColumns(inv, o, via, now);
    } else {
      NormalizedByCase(inv, o, via, now);
    }
  }

  // ---------------------------------------------------------------- what the caller is told

  /** The outcome names the link and the listing, whether they are new, and the kinds of the events written. */
  lemma OutcomeColumns(inv: Inventory, o: nat, via: DiscoveryMethod, now: Time)
    requires ForeignKeys(inv) && ProcessObservation(inv, o, via, now).Success?
    ensures o < |inv.observations| && |inv.links| <= |Normalized(inv, o, via, now).links|
    ensures
      var out, r := ProcessObservation(inv, o, via, now).value.outcome, Normalized(inv, o, via, now);
      if inv.observations[o].parseStatus in {ParseStatus.Invalid, ParseStatus.Blocked}
      then out == Outcome(Classification.Unresolved, None, None, [])
      else if |r.links| > |inv.links|
      then
        && out.link == Some(|inv.links|) && out.listing == Some(r.links[|inv.links|].listing)
        && out.classification == (if |r.listings| > |inv.listings| then New else MatchedExisting)
        && out.emitted == (if |r.listings| > |inv.listings| then [EventKind.Created] else [])
      else
        && inv.events <= r.events
        && (exists k: nat :: CaseOf(inv, o) == Updating(k) && k < |inv.links|
              && out.link == Some(k) && out.listing == Some(inv.links[k].listing))
        && out.classification == (if |r.events| > |inv.events| then MaterialChange else Unchanged)
        && |out.emitted| == |r.events| - |inv.events|
        && (forall n :: 0 <= n < |out.emitted| ==> out.emitted[n] == r.events[|inv.events| + n].key.kind)
  {
    hide ForeignKeys, CaseOf, Normalized, ProcessObservation, CaseResult, HasKey;
    match CaseOf(inv, o)
    case Nothing =>
      NothingOutcome(inv, o, via, now);
      ChangesNothing(inv, o, via, now);
    case Attaching(places, listing, identity) =>
      CreatedOutcome(inv, o, via, now);
      AttachingColumns(inv, o, via, now);
      CreatedRow(inv, o);
    case Adding(places, building, unit) =>
      CreatedOutcome(inv, o, via, now);
      OpeningColumns(inv, o, via, now);
      CreatedRow(inv, o);
      NoEventYet(inv, o);
    case Updating(k) =>
      UpdatedOutcome(inv, o, via, now);
      UpdatedLinks(inv, o, via, now);
  }

  lemma NoEventYet(inv: Inventory, o: nat)
    requires ForeignKeys(inv)
    ensures !HasKey(inv.events, EventKey(|inv.listings|, EventKind.Created, ByObservation(o)))
  {
    assert forall e :: 0 <= e < |inv.events| ==> EventRefers(inv.events[e], inv);
  }

  lemma UpdatedLinks(inv: Inventory, o: nat, via: DiscoveryMethod, now: Time)
    requires ForeignKeys(inv) && CaseOf(inv, o).Updating?
    ensures o < |inv.observations| && inv.observations[o].parseStatus in {ParseStatus.Valid, ParseStatus.Partial}
    ensures |Normalized(inv, o, via, now).links| == |inv.links|
  {
    hide ForeignKeys, Normalized, UpdateExisting, Locate, CreatingCase, MatchingLinks;
    CreatingIsNoUpdate(inv, o);
    NormalizedByCase(inv, o, via, now);
    UpdateShape(inv, o, CaseOf(inv, o).link, now);
  }

  lemma CreatedOutcome(inv: Inventory, o: nat, via: DiscoveryMethod, now: Time)
    requires ForeignKeys(inv) && ProcessObservation(inv, o, via, now).Success?
    requires CaseOf(inv, o).Attaching? || CaseOf(inv, o).Adding?
    ensures o < |inv.observations|
    ensures
      var c, out := CaseOf(inv, o), ProcessObservation(inv, o, via, now).value.outcome;
      && out.link == Some(|inv.links|)
      && (c.Attaching? ==> out.listing == Some(c.listing) && out.classification == MatchedExisting && out.emitted == [])
      && (c.Adding? ==>
            && out.listing == Some(|inv.listings|) && out.classification == New
            && out.emitted == if HasKey(inv.events, EventKey(|inv.listings|, EventKind.Created, ByObservation(o)))
                              then [] else [EventKind.Created])
  {
    hide ForeignKeys, Locate, MatchingLinks, LatestSeen, StrongMultiFieldMatch, UnitsAt, ListingsOfUnit, HasKey,
      InsertListing, GenerateDuplicateCandidates, Attach, UpdateExisting;
  }

  lemma UpdatedOutcome(inv: Inventory, o: nat, via: DiscoveryMethod, now: Time)
    requires ForeignKeys(inv) && ProcessObservation(inv, o, via, now).Success? && CaseOf(inv, o).Updating?
    ensures o < |inv.observations| && CaseOf(inv, o).link < |inv.links|
    ensures
      var k, r := CaseOf(inv, o).link, Normalized(inv, o, via, now);
      var out := ProcessObservation(inv, o, via, now).value.outcome;
      && inv.events <= r.events
      && out.link == Some(k) && out.listing == Some(inv.links[k].listing)
      && out.classification == (if |r.events| > |inv.events| then MaterialChange else Unchanged)
      && |out.emitted| == |r.events| - |inv.events|
      && (forall n :: 0 <= n < |out.emitted| ==> out.emitted[n] == r.events[|inv.events| + n].key.kind)
  {
    hide ForeignKeys, Locate, ApplyFields, RecordListingFacts, MatchingLinks, CreatingCase, Touch;
    CaseIsSound(inv, o);
    CreatingIsNoUpdate(inv, o);
    UpdateReads(inv, CaseOf(inv, o).link);
    TouchShape(inv, CaseOf(inv, o).link, o);
  }

  lemma NothingOutcome(inv: Inventory, o: nat, via: DiscoveryMethod, now: Time)
    requires ForeignKeys(inv) && ProcessObservation(inv, o, via, now).Success? && CaseOf(inv, o).Nothing?
    ensures o < |inv.observations| && inv.observations[o].parseStatus in {ParseStatus.Invalid, ParseStatus.Blocked}
    ensures ProcessObservation(inv, o, via, now).value.outcome == Outcome(Classification.Unresolved, None, None, [])
  {
    hide ForeignKeys, Locate, MatchingLinks, LatestSeen, StrongMultiFieldMatch, UnitsAt, ListingsOfUnit, HasKey,
      InsertListing, GenerateDuplicateCandidates, Attach, UpdateExisting;
  }
}
