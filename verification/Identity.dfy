/** Identity uniqueness and freshness over every run without reversals. */
module Identity {
  import opened Prelude
  import opened Schema
  import opened Normalization
  import opened MergeService
  import opened Engine
  import opened Shapes
  import opened MergeForest
  import Disappearance
  import Admission

  // ---------------------------------------------------------------- addresses, buildings, units

  /** One resolved address per match key, one building per address, one unit per building and unit key. */
  predicate PlacesUnique(p: Places) {
    && (forall a, b :: 0 <= a < b < |p.addresses| && p.addresses[a].resolved && p.addresses[b].resolved ==>
          p.addresses[a].fingerprint != p.addresses[b].fingerprint)
    && (forall a, b :: 0 <= a < b < |p.buildings| ==> p.buildings[a].address != p.buildings[b].address)
    && (forall a, b :: 0 <= a < b < |p.units| && p.units[a].building == p.units[b].building ==>
          p.units[a].fingerprint != p.units[b].fingerprint)
  }

  lemma ResolveAddressUnique(p: Places, row: Observation)
    requires PlacesUnique(p) && ResolveAddress(p, row).Success?
    ensures PlacesUnique(ResolveAddress(p, row).value.0)
  {
    if row.parsed.addressKey.Some? {
      var ids := AddressesWith(p.addresses, row.parsed.addressKey.value);
      assert forall a: nat :: a < |p.addresses| && p.addresses[a].fingerprint == row.parsed.addressKey.value ==>
        a in ids;
    }
  }

  lemma ResolveBuildingUnique(p: Places, address: nat)
    requires PlacesUnique(p) && ResolveBuilding(p, address).Success?
    ensures PlacesUnique(ResolveBuilding(p, address).value.0)
  {
    var ids := BuildingsAt(p.buildings, address);
    assert forall b: nat :: b < |p.buildings| && p.buildings[b].address == address ==> b in ids;
  }

  lemma NewUnitUnique(p: Places, unit: Unit)
    requires PlacesUnique(p) && UnitsAt(p.units, unit.building, unit.fingerprint) == []
    ensures PlacesUnique(p.(units := p.units + [unit]))
  {
    var ids := UnitsAt(p.units, unit.building, unit.fingerprint);
    assert forall u: nat | u < |p.units| && p.units[u].building == unit.building ::
        p.units[u].fingerprint == unit.fingerprint ==> u in ids;
  }

  function CasePlaces(c: NormalizationCase, otherwise: Places): Places {
    match c
    case Attaching(places, _, _) => places
    case Adding(places, _, _) => places
    case _ => otherwise
  }

  /** A new listing's unit has no unmerged listing yet. */
  predicate UnitFree(listings: seq<Listing>, c: NormalizationCase) {
    c.Adding? && c.unit.Some? ==>
      forall i :: 0 <= i < |listings| && listings[i].unit == c.unit ==> listings[i].lifecycle == Lifecycle.Merged
  }

  lemma NoListingOfUnit(listings: seq<Listing>, unit: nat)
    requires ListingsOfUnit(listings, unit) == []
    ensures forall i :: 0 <= i < |listings| && listings[i].unit == Some(unit) ==>
              listings[i].lifecycle == Lifecycle.Merged
  {
    var ids := ListingsOfUnit(listings, unit);
    assert forall i: nat | i < |listings| && listings[i].unit == Some(unit) ::
        listings[i].lifecycle != Lifecycle.Merged ==> i in ids;
  }

  lemma UnitCaseUnique(inv: Inventory, places: Places, o: nat, building: nat, key: string)
    requires ForeignKeys(inv) && o < |inv.observations| && PlacesUnique(places) && PlacesGrow(inv.places, places)
    ensures PlacesUnique(CasePlaces(UnitCase(inv, places, o, building, key), places))
    ensures UnitFree(inv.listings, UnitCase(inv, places, o, building, key))
  {
    hide LatestSeen, PlacesUnique;
    var unit := OneOrNone(UnitsAt(places.units, building, key));
    if unit.Success? && unit.value.Some? {
      if ListingsOfUnit(inv.listings, unit.value.value) == [] {
        NoListingOfUnit(inv.listings, unit.value.value);
      }
    } else if unit.Success? {
      NewUnitUnique(places, Unit(building, key, inv.observations[o].parsed.layout));
      assert forall i :: 0 <= i < |inv.listings| ==> ListingRefers(inv.listings[i], inv.places);
    }
  }

  lemma CaseUnique(inv: Inventory, o: nat)
    requires ForeignKeys(inv) && PlacesUnique(inv.places)
    ensures PlacesUnique(CasePlaces(CaseOf(inv, o), inv.places))
    ensures UnitFree(inv.listings, CaseOf(inv, o))
  {
    hide PlacesUnique, UnitCase, MatchingLinks, PlacesRefer, StrongMultiFieldMatch, ResolveAddress, ResolveBuilding;
    if o < |inv.observations| && Locate(inv.places, inv.observations[o]).Success? {
      var row := inv.observations[o];
      LocateGrows(inv.places, row);
      ResolveAddressUnique(inv.places, row);
      var (withAddress, address) := ResolveAddress(inv.places, row).value;
      ResolveBuildingUnique(withAddress, address);
      var (places, building) := Locate(inv.places, row).value;
      if row.parsed.unitKey.Some? {
        UnitCaseUnique(inv, places, o, building, row.parsed.unitKey.value);
      }
    }
  }

  // ---------------------------------------------------------------- links and listings

  /** One link per native id of a source. */
  predicate LinksUnique(links: seq<Link>) {
    forall a, b :: 0 <= a < b < |links| && links[a].nativeId.Some? && links[a].source == links[b].source ==>
      links[a].nativeId != links[b].nativeId
  }

  /** One unmerged listing per unit. */
  predicate OnePerUnit(listings: seq<Listing>) {
    forall i, j :: 0 <= i < j < |listings| && listings[i].unit.Some? && listings[i].unit == listings[j].unit ==>
      listings[i].lifecycle == Lifecycle.Merged || listings[j].lifecycle == Lifecycle.Merged
  }

  predicate NewestLink(inv: Inventory, i: nat, k: nat)
    requires i < |inv.listings|
  {
    k < |inv.links| && inv.links[k].listing == i && inv.links[k].lastSeenAt == inv.listings[i].lastSeenAt
  }

  /** An unmerged listing's last_seen_at is the maximum over its links, of which it has at least one. */
  ghost predicate FreshAt(inv: Inventory, i: nat)
    requires i < |inv.listings|
  {
    && (exists k: nat :: NewestLink(inv, i, k))
    && (forall k :: 0 <= k < |inv.links| && inv.links[k].listing == i ==>
          inv.links[k].lastSeenAt <= inv.listings[i].lastSeenAt)
  }

  ghost predicate Fresh(inv: Inventory) {
    forall i: nat :: i < |inv.listings| && !IsMerged(inv, i) ==> FreshAt(inv, i)
  }

  ghost predicate IdentitySound(inv: Inventory) {
    PlacesUnique(inv.places) && LinksUnique(inv.links) && OnePerUnit(inv.listings) && Fresh(inv)
  }

  lemma AttachKeepsIdentity(inv: Inventory, o: nat, listing: nat, via: DiscoveryMethod, identity: IdentityMethod)
    requires IdentitySound(inv) && o < |inv.observations| && listing < |inv.listings| && !IsMerged(inv, listing)
    requires MatchingLinks(inv.links, inv.observations[o]) == []
    ensures IdentitySound(Attach(inv, o, listing, via, identity))
  {
    hide PlacesUnique;
    var r := Attach(inv, o, listing, via, identity);
    NoMatchIsNew(inv.links, inv.observations[o], r.links[|inv.links|]);
    forall i: nat | i < |r.listings| && !IsMerged(r, i) ensures FreshAt(r, i) {
      assert FreshAt(inv, i);
      var k: nat :| NewestLink(inv, i, k);
      assert i != listing || inv.observations[o].observedAt < inv.listings[i].lastSeenAt ==> NewestLink(r, i, k);
      assert i == listing && inv.observations[o].observedAt >= inv.listings[i].lastSeenAt ==>
        NewestLink(r, i, |inv.links|);
    }
  }

  lemma NoMatchIsNew(links: seq<Link>, row: Observation, link: Link)
    requires MatchingLinks(links, row) == [] && link.source == row.source && link.nativeId == row.nativeId
    requires LinksUnique(links)
    ensures LinksUnique(links + [link])
  {
    var ids := MatchingLinks(links, row);
    assert forall k: nat :: k < |links| && Matches(links[k], row) ==> k in ids;
  }

  lemma AddKeepsIdentity(inv: Inventory, o: nat, building: nat, unit: Option<nat>, via: DiscoveryMethod, now: Time)
    requires IdentitySound(inv) && ForeignKeys(inv) && o < |inv.observations|
    requires MatchingLinks(inv.links, inv.observations[o]) == []
    requires unit.Some? ==> forall i :: 0 <= i < |inv.listings| && inv.listings[i].unit == unit ==> IsMerged(inv, i)
    ensures IdentitySound(AddListing(inv, o, building, unit, via, now).after)
  {
    hide PlacesUnique, AddListing, Emit, RecordListingFacts, MatchingLinks;
    AddShape(inv, o, building, unit, via, now);
    var r := AddListing(inv, o, building, unit, via, now).after;
    NoMatchIsNew(inv.links, inv.observations[o], r.links[|inv.links|]);
    assert forall k :: 0 <= k < |inv.links| ==> LinkRefers(inv.links[k], inv);
    assert NewestLink(r, |inv.listings|, |inv.links|);
    forall i: nat | i < |r.listings| && !IsMerged(r, i) ensures FreshAt(r, i) {
      if i < |inv.listings| {
        assert FreshAt(inv, i);
        var k: nat :| NewestLink(inv, i, k);
        assert NewestLink(r, i, k);
      }
    }
  }

  lemma UpdateKeepsIdentity(inv: Inventory, o: nat, k: nat, now: Time)
    requires IdentitySound(inv) && ForeignKeys(inv) && o < |inv.observations| && k < |inv.links|
    ensures inv.links[k].listing < |inv.listings| && inv.links[k].latestObservation < |inv.observations|
    ensures IdentitySound(UpdateExisting(inv, o, k, now).after)
  {
    hide PlacesUnique, UpdateExisting, ForeignKeys;
    UpdateShape(inv, o, k, now);
    var r := UpdateExisting(inv, o, k, now).after;
    var touched := inv.links[k].listing;
    if inv.links[k].latestObservation != o {
      forall i: nat | i < |r.listings| && !IsMerged(r, i) ensures FreshAt(r, i) {
        assert FreshAt(inv, i);
        var newest: nat :| NewestLink(inv, i, newest);
        assert r.listings[i].lastSeenAt == inv.listings[i].lastSeenAt ==> NewestLink(r, i, newest);
        assert r.listings[i].lastSeenAt != inv.listings[i].lastSeenAt ==> NewestLink(r, i, k);
      }
    }
  }

  lemma NormalizeKeepsIdentity(inv: Inventory, o: nat, via: DiscoveryMethod, now: Time)
    requires ForeignKeys(inv) && IdentitySound(inv)
    ensures IdentitySound(Normalized(inv, o, via, now))
  {
    hide AddListing, Attach, UpdateExisting, PlacesGrow, PlacesRefer, Normalized, CaseOf, MatchingLinks,
      ForeignKeys, PlacesUnique;
    NormalizedByCase(inv, o, via, now);
    CaseUnique(inv, o);
    match CaseOf(inv, o)
    case Nothing =>
    case Attaching(places, listing, identity) =>
      PlacesKeepIdentity(inv, places);
      AttachKeepsIdentity(inv.(places := places), o, listing, via, identity);
    case Adding(places, building, unit) =>
      PlacesKeepIdentity(inv, places);
      PlacesKeepKeys(inv, places);
      AddKeepsIdentity(inv.(places := places), o, building, unit, via, now);
    case Updating(k) => UpdateKeepsIdentity(inv, o, k, now);
  }

  lemma PlacesKeepIdentity(inv: Inventory, places: Places)
    requires IdentitySound(inv) && PlacesUnique(places)
    ensures IdentitySound(inv.(places := places))
  {
    var r := inv.(places := places);
    forall i: nat | i < |r.listings| && !IsMerged(r, i) ensures FreshAt(r, i) {
      assert FreshAt(inv, i);
      var k: nat :| NewestLink(inv, i, k);
      assert NewestLink(r, i, k);
    }
  }

  lemma MergeKeepsIdentity(inv: Inventory, source: nat, target: nat, now: Time)
    requires IdentitySound(inv) && source < |inv.listings| && target < |inv.listings| && source != target
    requires !IsMerged(inv, source) && !IsMerged(inv, target)
    ensures IdentitySound(DoMerge(inv, source, target, now))
  {
    hide PlacesUnique, Emit, MovedLinks;
    var r := DoMerge(inv, source, target, now);
    forall i: nat | i < |r.listings| && !IsMerged(r, i) ensures FreshAt(r, i) {
      assert FreshAt(inv, i) && FreshAt(inv, source);
      var k: nat :| NewestLink(inv, i, k);
      var s: nat :| NewestLink(inv, source, s);
      assert r.listings[i].lastSeenAt == inv.listings[i].lastSeenAt ==> NewestLink(r, i, k);
      assert r.listings[i].lastSeenAt != inv.listings[i].lastSeenAt ==> NewestLink(r, i, s);
    }
  }

  /** Places, link identities and freshness, units and freshness of listings, and who is merged: all as before. */
  predicate LeavesIdentity(inv: Inventory, r: Inventory) {
    && |r.links| == |inv.links| && |r.listings| == |inv.listings|
    && (forall k :: 0 <= k < |inv.links| ==> r.links[k] == inv.links[k].(status := r.links[k].status))
    && (forall i :: 0 <= i < |inv.listings| ==>
          && r.listings[i].unit == inv.listings[i].unit && r.listings[i].lastSeenAt == inv.listings[i].lastSeenAt
          && (IsMerged(r, i) <==> IsMerged(inv, i)))
  }

  lemma LeavingKeepsIdentity(inv: Inventory, r: Inventory)
    requires IdentitySound(inv) && LeavesIdentity(inv, r) && PlacesUnique(r.places)
    ensures IdentitySound(r)
  {
    hide PlacesUnique;
    forall i: nat | i < |r.listings| && !IsMerged(r, i) ensures FreshAt(r, i) {
      assert FreshAt(inv, i);
      var k: nat :| NewestLink(inv, i, k);
      assert NewestLink(r, i, k);
    }
  }

  lemma OtherStepLeavesIdentity(inv: Inventory, step: Step)
    requires ForeignKeys(inv) && !MovesLinks(step) && !step.NormalizeStep? && PlacesUnique(inv.places)
    ensures LeavesIdentity(inv, Apply(inv, step)) && PlacesUnique(Apply(inv, step).places)
  {
    hide ForeignKeys, Disappearance.ProcessSourceRun, Admission.EvaluateRows;
    match step {
      case DisappearStep(run, now) => DisappearanceShape(inv, run, now);
      case AdmitStep(rows, limit, now) =>
        if Admission.IsSelection(inv.listings, rows, limit) {
          AdmissionShape(inv, rows, now);
          assert forall a :: 0 <= a < |rows| ==> Admission.IsPending(inv.listings[rows[a]]);
        }
      case _ =>
    }
  }

  lemma StepKeepsIdentity(inv: Inventory, step: Step)
    requires ForeignKeys(inv) && IdentitySound(inv) && !step.ReverseStep?
    ensures IdentitySound(Apply(inv, step))
  {
    hide ForeignKeys, IdentitySound, DoMerge, Normalized, LeavesIdentity, PlacesUnique;
    match step {
      case NormalizeStep(o, via, now) => NormalizeKeepsIdentity(inv, o, via, now);
      case MergeStep(source, target, actor, now) =>
        if CheckMerge(inv.listings, source, target, actor).None? { MergeKeepsIdentity(inv, source, target, now); }
      case VerdictStep(c, verdict, actor, now) =>
        if ResolveDuplicateCandidate(inv, c, verdict, actor, now).Success? {
          VerdictKeepsIdentity(inv, c, verdict, actor, now);
        }
      case ReverseStep(_, _, _) =>
      case _ =>
        assert PlacesUnique(inv.places) by { PlacesOf(inv); }
        OtherStepLeavesIdentity(inv, step);
        LeavingKeepsIdentity(inv, Apply(inv, step));
    }
  }

  lemma PlacesOf(inv: Inventory)
    requires IdentitySound(inv)
    ensures PlacesUnique(inv.places)
  {
  }

  lemma VerdictKeepsIdentity(inv: Inventory, c: nat, verdict: Verdict, actor: Actor, now: Time)
    requires IdentitySound(inv) && ResolveDuplicateCandidate(inv, c, verdict, actor, now).Success?
    ensures IdentitySound(ResolveDuplicateCandidate(inv, c, verdict, actor, now).value)
  {
    hide PlacesUnique, IdentitySound, Emit, Relink, MovedLinks;
    if verdict.duplicate {
      var away, survivor := MergedAway(inv.candidates[c], verdict), Survivor(inv.candidates[c], verdict);
      MergeKeepsIdentity(inv, away, survivor, now);
      SettlingKeepsIdentity(DoMerge(inv, away, survivor, now), c, ConfirmedDuplicate);
    } else {
      SettlingKeepsIdentity(inv, c, ConfirmedDistinct);
    }
  }

  lemma SettlingKeepsIdentity(inv: Inventory, c: nat, status: CandidateStatus)
    requires IdentitySound(inv) && c < |inv.candidates|
    ensures IdentitySound(Settle(inv, c, status))
  {
    LeavingKeepsIdentity(inv, Settle(inv, c, status));
  }

  /** Without reversals identities stay unique and every live listing is exactly as fresh as its freshest link. */
  lemma {:induction false} RunKeepsIdentity(inv: Inventory, steps: seq<Step>)
    requires ForeignKeys(inv) && IdentitySound(inv) && NoReversals(steps)
    ensures IdentitySound(Run(inv, steps))
    decreases |steps|
  {
    hide IdentitySound;
    if steps != [] {
      ApplyKeepsKeys(inv, steps[0]);
      StepKeepsIdentity(inv, steps[0]);
      RunKeepsIdentity(Apply(inv, steps[0]), steps[1..]);
    }
  }
}
