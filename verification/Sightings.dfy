/** Runs from the empty database, built step by step: how the first sightings of listings open them. */
module Sightings {
  import opened Prelude
  import opened Schema
  import opened Normalization
  import opened Engine
  import opened Shapes
  import opened Reachable

  ghost function FromEmpty(steps: seq<Step>): (inv: Inventory)
    ensures ForeignKeys(inv)
  {
    EmptyIsSound();
    Run(EMPTY_INVENTORY, steps)
  }

  lemma Extend(steps: seq<Step>, step: Step)
    ensures FromEmpty(steps + [step]) == Apply(FromEmpty(steps), step)
    ensures NoReversals(steps) && !step.ReverseStep? ==> NoReversals(steps + [step])
  {
    hide ForeignKeys, Apply;
    EmptyIsSound();
    RunSnoc(EMPTY_INVENTORY, steps, step);
  }

  /** One source run of source 0, started at time 0. */
  lemma OneRun() returns (steps: seq<Step>)
    ensures NoReversals(steps)
    ensures FromEmpty(steps) == EMPTY_INVENTORY.(runs := [SourceRun(0, 0, SourceRunStatus.Pending, None)])
    ensures steps == [OpenRun(0, 0)]
  {
    hide ForeignKeys;
    Extend([], OpenRun(0, 0));
    steps := [OpenRun(0, 0)];
    assert [] + [OpenRun(0, 0)] == steps;
    EmptyIsSound();
    assert FromEmpty([]) == EMPTY_INVENTORY;
  }

  // ---------------------------------------------------------------- queries with one answer

  lemma {:induction false} OnlyAnswer<T>(rows: seq<T>, p: T -> bool, i: nat)
    requires i < |rows| && p(rows[i]) && forall j :: 0 <= j < |rows| && j != i ==> !p(rows[j])
    ensures Where(rows, p) == [i]
  {
    var front := rows[..|rows| - 1];
    if i == |rows| - 1 {
      WhereNone(front, p);
    } else {
      OnlyAnswer(front, p, i);
    }
  }

  // ---------------------------------------------------------------- sightings without address

  /** A sighting of listing `id` by source 0 that states at most its layout. */
  function Sighting(id: string, at: Time, layout: LayoutClass): Observation {
    Observation(0, 0, Some(id), "u", at, "h", ParseStatus.Valid,
                Parsed(None, None, layout, None, Availability.Unknown, Laundry.Unknown))
  }

  predicate Unseen(links: seq<Link>, row: Observation) {
    forall k :: 0 <= k < |links| ==> !Matches(links[k], row)
  }

  /** The sighting was stored and opened a listing with its first link; runs, merges and overrides are as they were. */
  predicate Opened(inv: Inventory, r: Inventory, row: Observation, building: nat, unit: Option<nat>) {
    && r.listings == inv.listings + [FirstListing(row, building, unit)]
    && r.links == inv.links
         + [NewLink(|inv.listings|, |inv.observations|, row, DiscoveryMethod.Direct, SourceNativeContinuity)]
    && r.observations == inv.observations + [row]
    && r.runs == inv.runs && r.merges == inv.merges && r.facts.overrides == inv.facts.overrides
  }

  /** The two steps of a sighting: it is stored, and then processed. */
  lemma Sighted(steps: seq<Step>, row: Observation)
    requires row.run < |FromEmpty(steps).runs|
    ensures
      var inv := FromEmpty(steps);
      var stored := inv.(observations := inv.observations + [row]);
      var more := steps + [Observe(row)] + [NormalizeStep(|inv.observations|, DiscoveryMethod.Direct, 0)];
      && ForeignKeys(stored)
      && FromEmpty(more) == Normalized(stored, |inv.observations|, DiscoveryMethod.Direct, 0)
      && (NoReversals(steps) ==> NoReversals(more))
  {
    hide Normalized, FromEmpty, ForeignKeys;
    var inv := FromEmpty(steps);
    Extend(steps, Observe(row));
    assert Apply(inv, Observe(row)) == inv.(observations := inv.observations + [row]);
    Extend(steps + [Observe(row)], NormalizeStep(|inv.observations|, DiscoveryMethod.Direct, 0));
  }

  lemma BlankCase(inv: Inventory, o: nat)
    requires ForeignKeys(inv) && o < |inv.observations| && Usable(inv.observations[o])
    requires Unseen(inv.links, inv.observations[o])
    requires inv.observations[o].parsed.addressKey.None? && inv.observations[o].parsed.unitKey.None?
    requires inv.observations[o].parsed.rent.None?
    ensures
      var address := NewAddress(false, PlaceholderKey(inv.observations[o].url));
      var places := inv.places.(addresses := inv.places.addresses + [address],
                                buildings := inv.places.buildings + [Building.Building(|inv.places.addresses|)]);
      CaseOf(inv, o) == Adding(places, |inv.places.buildings|, None)
  {
    var row := inv.observations[o];
    WhereNone(inv.links, (l: Link) => Matches(l, row));
    WhereNone(inv.places.buildings, (b: Building) => b.address == |inv.places.addresses|);
    assert BuildingsAt(inv.places.buildings, |inv.places.addresses|) == [];
  }

  /** A listing first sighted without address, unit and rent gets a placeholder building and no unit. */
  lemma BlankOpens(inv: Inventory, o: nat)
    requires ForeignKeys(inv) && o + 1 == |inv.observations| && Usable(inv.observations[o])
    requires Unseen(inv.links, inv.observations[o])
    requires inv.observations[o].parsed.addressKey.None? && inv.observations[o].parsed.unitKey.None?
    requires inv.observations[o].parsed.rent.None?
    ensures
      var before := inv.(observations := inv.observations[..o]);
      var r := Normalized(inv, o, DiscoveryMethod.Direct, 0);
      Opened(before, r, inv.observations[o], |inv.places.buildings|, None) && r.places.units == inv.places.units
      && r.places.addresses == inv.places.addresses + [NewAddress(false, PlaceholderKey(inv.observations[o].url))]
      && r.places.buildings == inv.places.buildings + [Building.Building(|inv.places.addresses|)]
  {
    hide CaseOf, AddListing, MatchingLinks, Normalized, PlacesGrow, PlacesRefer, Unseen;
    BlankCase(inv, o);
    NormalizedByCase(inv, o, DiscoveryMethod.Direct, 0);
    var c := CaseOf(inv, o);
    AddShape(inv.(places := c.places), o, c.building, c.unit, DiscoveryMethod.Direct, 0);
    assert inv.observations == inv.observations[..o] + [inv.observations[o]];
  }

  /** So does the next sighting in a run. */
  lemma SightBlank(steps: seq<Step>, row: Observation) returns (more: seq<Step>)
    requires row.run < |FromEmpty(steps).runs| && Usable(row) && Unseen(FromEmpty(steps).links, row)
    requires row.parsed.addressKey.None? && row.parsed.unitKey.None? && row.parsed.rent.None?
    ensures more == steps + [Observe(row)] + [NormalizeStep(|FromEmpty(steps).observations|, DiscoveryMethod.Direct, 0)]
    ensures Opened(FromEmpty(steps), FromEmpty(more), row, |FromEmpty(steps).places.buildings|, None)
    ensures FromEmpty(more).places.units == FromEmpty(steps).places.units
    ensures FromEmpty(more).places.addresses
         == FromEmpty(steps).places.addresses + [NewAddress(false, PlaceholderKey(row.url))]
    ensures FromEmpty(more).places.buildings
         == FromEmpty(steps).places.buildings + [Building.Building(|FromEmpty(steps).places.addresses|)]
    ensures NoReversals(steps) ==> NoReversals(more)
  {
    hide Normalized, FromEmpty, ForeignKeys, Unseen;
    var inv := FromEmpty(steps);
    Sighted(steps, row);
    var stored := inv.(observations := inv.observations + [row]);
    assert stored.observations[..|inv.observations|] == inv.observations;
    assert stored.(observations := inv.observations) == inv;
    BlankOpens(stored, |inv.observations|);
    more := steps + [Observe(row)] + [NormalizeStep(|inv.observations|, DiscoveryMethod.Direct, 0)];
  }

  lemma OtherIdIsUnseen(links: seq<Link>, id: string, at: Time, layout: LayoutClass)
    requires forall k :: 0 <= k < |links| ==> links[k].nativeId != Some(id)
    ensures Unseen(links, Sighting(id, at, layout))
  {
  }

  // ---------------------------------------------------------------- two and three listings

  /** Two listings of their own, seen at these times, each with one ACTIVE link; nothing merged, nothing overridden. */
  predicate TwoListings(inv: Inventory, first: Time, second: Time, layout: LayoutClass) {
    && |inv.listings| == 2 && |inv.links| == 2 && inv.merges == [] && inv.facts.overrides == []
    && inv.runs == [SourceRun(0, 0, SourceRunStatus.Pending, None)] && |inv.observations| == 2
    && inv.listings[0].lastSeenAt == first && inv.listings[1].lastSeenAt == second
    && (forall i :: 0 <= i < 2 ==>
          && inv.listings[i].lifecycle == Lifecycle.Candidate && inv.listings[i].layout == layout
          && inv.links[i].listing == i && inv.links[i].lastSeenAt == inv.listings[i].lastSeenAt
          && inv.links[i].source == 0 && inv.links[i].latestObservation == i)
    && inv.links[0].nativeId == Some("a") && inv.links[1].nativeId == Some("b")
  }

  lemma ReachTwo(first: Time, second: Time, layout: LayoutClass) returns (steps: seq<Step>)
    ensures NoReversals(steps) && TwoListings(FromEmpty(steps), first, second, layout)
  {
    hide FromEmpty, Unseen;
    var started := OneRun();
    var inv := FromEmpty(started);
    OtherIdIsUnseen(inv.links, "a", first, layout);
    var one := SightBlank(started, Sighting("a", first, layout));
    assert "a" != "b" by { assert "a"[0] != "b"[0]; }
    OtherIdIsUnseen(FromEmpty(one).links, "b", second, layout);
    steps := SightBlank(one, Sighting("b", second, layout));
  }

  predicate ThreeListings(inv: Inventory) {
    && |inv.listings| == 3 && |inv.links| == 3 && inv.merges == []
    && (forall i :: 0 <= i < 3 ==> inv.listings[i].lifecycle == Lifecycle.Candidate && inv.links[i].listing == i)
  }

  lemma ReachThree() returns (steps: seq<Step>)
    ensures NoReversals(steps) && ThreeListings(FromEmpty(steps))
  {
    hide FromEmpty, Unseen;
    var two := ReachTwo(1, 1, LayoutClass.Unknown);
    var inv := FromEmpty(two);
    assert "a" != "c" && "b" != "c" by { assert "a"[0] != "c"[0] && "b"[0] != "c"[0]; }
    OtherIdIsUnseen(inv.links, "c", 1, LayoutClass.Unknown);
    steps := SightBlank(two, Sighting("c", 1, LayoutClass.Unknown));
  }
}
