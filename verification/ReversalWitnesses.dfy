/** Reachable runs in which reversing merges goes wrong, one for each way it can. */
module ReversalWitnesses {
  import opened Prelude
  import opened Schema
  import opened Normalization
  import opened MergeService
  import opened Engine
  import opened Shapes
  import opened MergeForest
  import opened Lifecycles
  import opened NestedUndo
  import opened Identity
  import opened ReversalIdentity
  import opened Reachable
  import opened Sightings

  const OPERATOR := Actor(true, true)

  /** The state is reached without reversals, so it is sound; its first merge is unreversed. */
  ghost predicate MergedSoundly(steps: seq<Step>) {
    var inv := FromEmpty(steps);
    && NoReversals(steps) && ForestSound(inv) && IdentitySound(inv)
    && ActiveMerge(inv.merges, 0) && MergeRefers(inv.merges[0], inv)
  }

  lemma ReachedSoundly(steps: seq<Step>)
    requires NoReversals(steps) && ActiveMerge(FromEmpty(steps).merges, 0)
    ensures MergedSoundly(steps)
  {
    hide ForestSound, IdentitySound, ForeignKeys;
    EveryReachableStateIsSound(steps);
    MergesRefer(FromEmpty(steps), 0);
  }

  lemma MergeNext(steps: seq<Step>, source: nat, target: nat) returns (more: seq<Step>)
    requires source != target && source < |FromEmpty(steps).listings| && target < |FromEmpty(steps).listings|
    requires !IsMerged(FromEmpty(steps), source) && !IsMerged(FromEmpty(steps), target)
    ensures FromEmpty(more) == DoMerge(FromEmpty(steps), source, target, 0)
    ensures more == steps + [MergeStep(source, target, OPERATOR, 0)] && (NoReversals(steps) ==> NoReversals(more))
  {
    hide FromEmpty, DoMerge;
    more := steps + [MergeStep(source, target, OPERATOR, 0)];
    Extend(steps, MergeStep(source, target, OPERATOR, 0));
  }

  lemma ReverseNext(steps: seq<Step>, m: nat) returns (more: seq<Step>)
    requires ActiveMerge(FromEmpty(steps).merges, m)
    ensures FromEmpty(steps).merges[m].source < |FromEmpty(steps).listings|
    ensures FromEmpty(more) == DoReverse(FromEmpty(steps), m, 0) && more == steps + [ReverseStep(m, OPERATOR, 0)]
  {
    hide FromEmpty, DoReverse, ForeignKeys;
    more := steps + [ReverseStep(m, OPERATOR, 0)];
    Extend(steps, ReverseStep(m, OPERATOR, 0));
    MergesRefer(FromEmpty(steps), m);
  }

  // ---------------------------------------------------------------- a link on the wrong listing

  /** Merge 0 into 1 and 1 into 2, reverse both oldest first: every merge is undone, and the link of 0 is left on 1. */
  lemma WrongOwner() returns (before: seq<Step>, after: seq<Step>)
    ensures NoReversals(before) && ThreeListings(FromEmpty(before))
    ensures after == before + [MergeStep(0, 1, OPERATOR, 0)] + [MergeStep(1, 2, OPERATOR, 0)]
                       + [ReverseStep(0, OPERATOR, 0)] + [ReverseStep(1, OPERATOR, 0)]
    ensures
      var inv := FromEmpty(after);
      && (forall m: nat :: !ActiveMerge(inv.merges, m))
      && |inv.links| == 3 && inv.links[0].listing == 1
  {
    hide FromEmpty, DoMerge, DoReverse, ForeignKeys;
    before := ReachThree();
    var inv := FromEmpty(before);
    ChainOfThree(inv);
    var first := MergeNext(before, 0, 1);
    var second := MergeNext(first, 1, 2);
    var third := ReverseNext(second, 0);
    after := ReverseNext(third, 1);
  }

  /** `a` into `b`, `b` into `c`, then reversed oldest first. */
  ghost function OldestFirst(inv: Inventory, a: nat, b: nat, c: nat, now: Time): Inventory
    requires a < |inv.listings| && b < |inv.listings| && c < |inv.listings| && a != b && b != c
  {
    var merged := DoMerge(DoMerge(inv, a, b, now), b, c, now);
    DoReverse(DoReverse(merged, |inv.merges|, now), |inv.merges| + 1, now)
  }

  lemma MovedLinksOf(links: seq<Link>, a: nat)
    ensures forall k: nat :: k in MovedLinks(links, a) <==> k < |links| && links[k].listing == a
  {
  }

  lemma OldestFirstOwner(inv: Inventory, a: nat, b: nat, c: nat, now: Time, k: nat)
    requires a < |inv.listings| && b < |inv.listings| && c < |inv.listings| && a != b && b != c && a != c
    requires k < |inv.links|
    ensures k < |OldestFirst(inv, a, b, c, now).links|
    ensures OldestFirst(inv, a, b, c, now).links[k].listing
         == if inv.links[k].listing == a then b else inv.links[k].listing
  {
    hide MovedLinks, Emit;
    var first := DoMerge(inv, a, b, now);
    MovedLinksOf(inv.links, a);
    MovedLinksOf(first.links, b);
    var merged := DoMerge(first, b, c, now);
    assert merged.merges[|inv.merges|].moved == MovedLinks(inv.links, a);
    assert merged.merges[|inv.merges| + 1].moved == MovedLinks(first.links, b);
  }

  /** The chain on any state of three listings. */
  lemma ChainOfThree(inv: Inventory)
    requires ThreeListings(inv)
    ensures
      var first := DoMerge(inv, 0, 1, 0);
      && |first.listings| == 3 && !IsMerged(first, 1) && !IsMerged(first, 2)
      && var second := DoMerge(first, 1, 2, 0);
         && ActiveMerge(second.merges, 0) && second.merges[0].source < |second.listings|
         && var third := DoReverse(second, 0, 0);
            && ActiveMerge(third.merges, 1) && third.merges[1].source < |third.listings|
            && var last := DoReverse(third, 1, 0);
               && (forall m: nat :: !ActiveMerge(last.merges, m))
               && |last.links| == 3 && last.links[0].listing == 1
  {
    hide DoMerge, DoReverse;
    MergeRemembers(inv, 0, 1, 0);
    MergeMoves(inv, 0, 1, 0, 1);
    MergeMoves(inv, 0, 1, 0, 2);
    var first := DoMerge(inv, 0, 1, 0);
    MergeRemembers(first, 1, 2, 0);
    var second := DoMerge(first, 1, 2, 0);
    ReverseShape(second, 0, 0);
    var third := DoReverse(second, 0, 0);
    ReverseShape(third, 1, 0);
    OldestFirstOwner(inv, 0, 1, 2, 0, 0);
  }

  // ---------------------------------------------------------------- the survivor keeps a borrowed stamp

  /** A later-seen listing merged into an earlier-seen one: reversed, it leaves the survivor a stamp no link carries. */
  lemma BorrowedStamp() returns (steps: seq<Step>)
    ensures MergedSoundly(steps)
    ensures !LeavesFresh(FromEmpty(steps), FromEmpty(steps).merges[0].moved)
    ensures !IdentitySound(DoReverse(FromEmpty(steps), 0, 0))
  {
    hide FromEmpty, DoMerge, DoReverse, ForeignKeys, LeavesFresh, ForestSound, IdentitySound,
      ReturnsFresh, UnitStillFree;
    var two := ReachTwo(2, 1, LayoutClass.Unknown);
    steps := MergeNext(two, 0, 1);
    MergedTwo(FromEmpty(two), 2, 1);
    ReachedSoundly(steps);
    ReversalKeepsIdentityIff(FromEmpty(steps), 0, 0);
  }

  lemma MergedTwo(inv: Inventory, first: Time, second: Time)
    requires TwoListings(inv, first, second, LayoutClass.Unknown)
    ensures
      var r := DoMerge(inv, 0, 1, 0);
      && |r.merges| == 1 && r.merges[0] == Merge(0, 1, [0], 0, None)
      && |r.listings| == 2 && r.listings[0].lastSeenAt == first && r.listings[1].lastSeenAt == Max(first, second)
      && IsMerged(r, 0) && !IsMerged(r, 1)
      && r.links == [inv.links[0].(listing := 1), inv.links[1]]
      && (first > second ==> !LeavesFresh(r, [0]))
  {
    hide Emit;
    OnlyAnswer(inv.links, (l: Link) => LinkOf(l, 0), 0);
    var r := DoMerge(inv, 0, 1, 0);
    assert r.links == [inv.links[0].(listing := 1), inv.links[1]];
    if first > second {
      NoOwnStamp(r, 1);
    }
  }

  lemma NoOwnStamp(r: Inventory, i: nat)
    requires i < |r.listings| && !IsMerged(r, i) && |r.links| == 2
    requires r.links[1].lastSeenAt != r.listings[i].lastSeenAt
    ensures !LeavesFresh(r, [0])
  {
    forall k: nat | NewestLink(r, i, k) ensures k in [0] {
      assert k < 2 && k != 1;
    }
  }

  // ---------------------------------------------------------------- the listing comes back stale

  /** A listing seen again while merged away: reversed, it is older than the link it gets back. */
  lemma ComesBackStale() returns (steps: seq<Step>)
    ensures MergedSoundly(steps)
    ensures !ReturnsFresh(FromEmpty(steps), FromEmpty(steps).merges[0])
    ensures !IdentitySound(DoReverse(FromEmpty(steps), 0, 0))
  {
    hide FromEmpty, DoMerge, DoReverse, ForeignKeys, LeavesFresh, ForestSound, IdentitySound, UnitStillFree, Normalized;
    var two := ReachTwo(1, 1, LayoutClass.Unknown);
    var merged := MergeNext(two, 0, 1);
    MergedTwo(FromEmpty(two), 1, 1);
    MergeKeepsObservations(FromEmpty(two));
    var inv := FromEmpty(merged);
    var row := Sighting("a", 5, LayoutClass.Unknown);
    Sighted(merged, row);
    steps := merged + [Observe(row)] + [NormalizeStep(2, DiscoveryMethod.Direct, 0)];
    assert "a" != "b" by { assert "a"[0] != "b"[0]; }
    SeenAgain(inv.(observations := inv.observations + [row]));
    ReachedSoundly(steps);
    ReversalKeepsIdentityIff(FromEmpty(steps), 0, 0);
  }

  lemma MergeKeepsObservations(inv: Inventory)
    requires |inv.listings| == 2
    ensures DoMerge(inv, 0, 1, 0).observations == inv.observations && DoMerge(inv, 0, 1, 0).runs == inv.runs
  {
  }

  /** The second sighting touches link 0, now with listing 1, and not listing 0. */
  lemma SeenAgain(inv: Inventory)
    requires ForeignKeys(inv) && |inv.observations| == 3 && inv.observations[2] == Sighting("a", 5, LayoutClass.Unknown)
    requires |inv.links| == 2 && inv.links[0].listing == 1 && inv.links[0].source == 0
    requires inv.links[0].nativeId == Some("a")
    requires inv.links[1].nativeId != Some("a") && inv.links[0].lastSeenAt == 1 && inv.links[0].latestObservation == 0
    requires |inv.listings| == 2 && inv.listings[0].lastSeenAt == 1
    requires |inv.merges| == 1 && inv.merges[0] == Merge(0, 1, [0], 0, None)
    ensures
      var r := Normalized(inv, 2, DiscoveryMethod.Direct, 0);
      && r.merges == inv.merges && |r.links| == 2 && |r.listings| == 2
      && r.links[0].lastSeenAt == 5 && r.listings[0].lastSeenAt == 1
  {
    hide Normalized, UpdateExisting, ForeignKeys;
    OnlyAnswer(inv.links, (l: Link) => Matches(l, inv.observations[2]), 0);
    assert CaseOf(inv, 2) == Updating(0);
    NormalizedByCase(inv, 2, DiscoveryMethod.Direct, 0);
    UpdateShape(inv, 2, 0, 0);
  }

  // ---------------------------------------------------------------- the unit was given away

  /** A sighting with an address and a unit. */
  function UnitSighting(id: string): Observation {
    Observation(0, 0, Some(id), "v", 1, "h", ParseStatus.Valid,
                Parsed(Some("x"), Some("1"), LayoutClass.Unknown, None, Availability.Unknown, Laundry.Unknown))
  }

  /** First sighting at an address nobody knows. */
  lemma NewUnitCase(inv: Inventory)
    requires ForeignKeys(inv) && inv.places == Places([], [], []) && inv.links == [] && |inv.observations| == 1
    requires inv.observations[0] == UnitSighting("a")
    ensures CaseOf(inv, 0)
         == Adding(Places([NewAddress(true, "x")], [Building.Building(0)], [Unit(0, "1", LayoutClass.Unknown)]),
                   0, Some(0))
  {
    assert MatchingLinks([], inv.observations[0]) == [];
    assert AddressesWith([], "x") == [] && BuildingsAt([], 0) == [] && UnitsAt([], 0, "1") == [];
  }

  /** Another sighting of the unit once its only listing is merged away. */
  lemma FreedUnitCase(inv: Inventory)
    requires ForeignKeys(inv) && |inv.observations| == 3 && inv.observations[2] == UnitSighting("c")
    requires Unseen(inv.links, inv.observations[2])
    requires |inv.places.addresses| == 2 && inv.places.addresses[0].fingerprint == "x"
    requires inv.places.addresses[1].fingerprint != "x"
    requires inv.places.buildings == [Building.Building(0), Building.Building(1)]
    requires inv.places.units == [Unit(0, "1", LayoutClass.Unknown)]
    requires |inv.listings| == 2 && inv.listings[0].lifecycle == Lifecycle.Merged && inv.listings[1].unit == None
    ensures CaseOf(inv, 2) == Adding(inv.places, 0, Some(0))
  {
    hide Locate, LatestSeen, UnitsAt, ForeignKeys, Unseen;
    var row := inv.observations[2];
    NoMatch(inv.links, row);
    KnownPlaces(inv.places, row);
    FreedUnit(inv.listings);
  }

  lemma NoMatch(links: seq<Link>, row: Observation)
    requires Unseen(links, row)
    ensures MatchingLinks(links, row) == []
  {
    WhereNone(links, (l: Link) => Matches(l, row));
  }

  lemma KnownPlaces(p: Places, row: Observation)
    requires row.parsed.addressKey == Some("x")
    requires |p.addresses| == 2 && p.addresses[0].fingerprint == "x" && p.addresses[1].fingerprint != "x"
    requires p.buildings == [Building.Building(0), Building.Building(1)]
    requires p.units == [Unit(0, "1", LayoutClass.Unknown)]
    ensures Locate(p, row) == Success((p, 0)) && UnitsAt(p.units, 0, "1") == [0]
  {
    hide AddressesWith, BuildingsAt, UnitsAt;
    KnownAddress(p.addresses);
    KnownBuilding(p.buildings);
    KnownUnit(p.units);
  }

  lemma KnownAddress(addresses: seq<Address>)
    requires |addresses| == 2 && addresses[0].fingerprint == "x" && addresses[1].fingerprint != "x"
    ensures AddressesWith(addresses, "x") == [0]
  {
    OnlyAnswer(addresses, (a: Address) => a.fingerprint == "x", 0);
  }

  lemma KnownBuilding(buildings: seq<Building>)
    requires buildings == [Building.Building(0), Building.Building(1)]
    ensures BuildingsAt(buildings, 0) == [0]
  {
    OnlyAnswer(buildings, (b: Building) => b.address == 0, 0);
  }

  lemma KnownUnit(units: seq<Unit>)
    requires units == [Unit(0, "1", LayoutClass.Unknown)]
    ensures UnitsAt(units, 0, "1") == [0]
  {
    OnlyAnswer(units, (u: Unit) => u.building == 0 && u.fingerprint == "1", 0);
  }

  lemma FreedUnit(listings: seq<Listing>)
    requires |listings| == 2 && listings[0].lifecycle == Lifecycle.Merged && listings[1].unit == None
    ensures ListingsOfUnit(listings, 0) == []
  {
    WhereNone(listings, (l: Listing) => l.unit == Some(0) && l.lifecycle != Lifecycle.Merged);
  }

  /** What opening a listing in a unit leaves, as far as this matters. */
  lemma UnitOpens(inv: Inventory, o: nat, building: nat)
    requires ForeignKeys(inv) && o + 1 == |inv.observations|
    requires CaseOf(inv, o).Adding? && CaseOf(inv, o).building == building && CaseOf(inv, o).unit == Some(0)
    ensures
      var before := inv.(observations := inv.observations[..o]);
      var r := Normalized(inv, o, DiscoveryMethod.Direct, 0);
      Opened(before, r, inv.observations[o], building, Some(0)) && r.places == CaseOf(inv, o).places
  {
    hide CaseOf, AddListing, MatchingLinks, Normalized, PlacesGrow, PlacesRefer;
    NormalizedByCase(inv, o, DiscoveryMethod.Direct, 0);
    var c := CaseOf(inv, o);
    AddShape(inv.(places := c.places), o, c.building, c.unit, DiscoveryMethod.Direct, 0);
    assert inv.observations == inv.observations[..o] + [inv.observations[o]];
  }

  /** The listing of unit 0, and one without unit. */
  predicate UnitAndBlank(inv: Inventory) {
    && |inv.listings| == 2 && |inv.links| == 2 && inv.merges == [] && |inv.observations| == 2
    && inv.runs == [SourceRun(0, 0, SourceRunStatus.Pending, None)]
    && (forall i :: 0 <= i < 2 ==> inv.listings[i].lifecycle == Lifecycle.Candidate && inv.links[i].listing == i)
    && inv.listings[0].unit == Some(0) && inv.listings[1].unit == None
    && inv.links[0].nativeId == Some("a") && inv.links[1].nativeId == Some("b")
    && |inv.places.addresses| == 2 && inv.places.addresses[0].fingerprint == "x"
    && inv.places.addresses[1].fingerprint == PlaceholderKey("u")
    && inv.places.buildings == [Building.Building(0), Building.Building(1)]
    && inv.places.units == [Unit(0, "1", LayoutClass.Unknown)]
  }

  lemma ReachUnitAndBlank() returns (steps: seq<Step>)
    ensures NoReversals(steps) && UnitAndBlank(FromEmpty(steps))
  {
    hide FromEmpty, Unseen, Normalized, ForeignKeys, CaseOf;
    var started := OneRun();
    var inv := FromEmpty(started);
    var row := UnitSighting("a");
    Sighted(started, row);
    var stored := inv.(observations := inv.observations + [row]);
    NewUnitCase(stored);
    UnitOpens(stored, 0, 0);
    assert stored.observations[..0] == inv.observations;
    var one := started + [Observe(row)] + [NormalizeStep(0, DiscoveryMethod.Direct, 0)];
    assert "a" != "b" by { assert "a"[0] != "b"[0]; }
    OtherIdIsUnseen(FromEmpty(one).links, "b", 1, LayoutClass.Unknown);
    steps := SightBlank(one, Sighting("b", 1, LayoutClass.Unknown));
  }

  /** A unit given to a new listing while its old one is merged away: reversed, the unit has two live listings. */
  lemma UnitGivenAway() returns (steps: seq<Step>)
    ensures MergedSoundly(steps)
    ensures !UnitStillFree(FromEmpty(steps), FromEmpty(steps).merges[0].source)
    ensures !IdentitySound(DoReverse(FromEmpty(steps), 0, 0))
  {
    hide FromEmpty, DoReverse, ForeignKeys, LeavesFresh, ForestSound, IdentitySound, ReturnsFresh, Normalized,
      CaseOf, Unseen;
    var two := ReachUnitAndBlank();
    var merged := MergeNext(two, 0, 1);
    var inv := FromEmpty(merged);
    UnitMergedAway(FromEmpty(two));
    var row := UnitSighting("c");
    Sighted(merged, row);
    steps := merged + [Observe(row)] + [NormalizeStep(2, DiscoveryMethod.Direct, 0)];
    var stored := inv.(observations := inv.observations + [row]);
    FreedUnitCase(stored);
    UnitOpens(stored, 2, 0);
    assert stored.observations[..2] == inv.observations;
    GivenAway(stored, FromEmpty(steps));
    ReachedSoundly(steps);
    ReversalKeepsIdentityIff(FromEmpty(steps), 0, 0);
  }

  lemma UnitMergedAway(inv: Inventory)
    requires UnitAndBlank(inv)
    ensures
      var r := DoMerge(inv, 0, 1, 0);
      && |r.observations| == 2 && r.runs == inv.runs && r.places == inv.places && Unseen(r.links, UnitSighting("c"))
      && |r.listings| == 2 && r.listings[0].lifecycle == Lifecycle.Merged
      && r.listings[1].lifecycle == Lifecycle.Candidate
      && r.listings[0].unit == Some(0) && r.listings[1].unit == None
      && |r.merges| == 1 && r.merges[0].source == 0 && r.merges[0].reversedAt == None
      && r.places.addresses[1].fingerprint != "x"
  {
    hide MovedLinks, Emit;
    assert "a" != "c" && "b" != "c" by { assert "a"[0] != "c"[0] && "b"[0] != "c"[0]; }
    assert PlaceholderKey("u") != "x" by { assert |PlaceholderKey("u")| > 1; }
  }

  lemma GivenAway(before: Inventory, r: Inventory)
    requires |before.listings| == 2 && before.listings[0].unit == Some(0) && |before.observations| == 3
    requires r.listings == before.listings + [FirstListing(before.observations[2], 0, Some(0))]
    ensures |r.listings| == 3 && !UnitStillFree(r, 0)
  {
    assert r.listings[2].unit == r.listings[0].unit && r.listings[2].lifecycle == Lifecycle.Candidate;
  }
}
