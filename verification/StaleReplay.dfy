/** A reachable run in which replaying an older observation changes a field without an event. */
module StaleReplay {
  import opened Prelude
  import opened Schema
  import opened Normalization
  import opened Engine
  import opened Shapes
  import opened EventLog
  import opened Sightings

  /** Observations of one source identity that state a rent and nothing else. */
  function RentSeen(rent: nat, at: Time, hash: string): Observation {
    Observation(0, 0, Some("n"), "u", at, hash, ParseStatus.Valid,
      Parsed(None, None, LayoutClass.Unknown, Some(rent), Availability.Unknown, Laundry.Unknown))
  }

  predicate StatesOnlyRent(row: Observation) {
    && row.parsed.layout == LayoutClass.Unknown && row.parsed.rent.Some?
    && row.parsed.availability == Availability.Unknown && row.parsed.laundry == Laundry.Unknown
    && Usable(row)
  }

  /** What one rent-only observation does to a lone listing with a lone link. */
  lemma RentUpdate(inv: Inventory, o: nat, now: Time)
    requires ForeignKeys(inv) && |inv.links| == 1 && |inv.listings| == 1 && o < |inv.observations|
    requires Matches(inv.links[0], inv.observations[o]) && StatesOnlyRent(inv.observations[o])
    requires Applies(inv, o, 0) && inv.facts.overrides == []
    requires inv.observations[o].parsed.rent != inv.listings[0].rent
    ensures
      var row := inv.observations[o];
      var r := Normalized(inv, o, DiscoveryMethod.Direct, now);
      && r.observations == inv.observations && |r.listings| == 1 && r.facts.overrides == []
      && r.links == [TouchLink(inv.links[0], row, o)]
      && r.listings[0].rent == row.parsed.rent
      && r.events == Emit(inv.events, ChangeEvent(0, RentKey, o, row.observedAt,
           RentValue(inv.listings[0].rent), RentValue(row.parsed.rent)))
    ensures Unlogged(inv, o) <==> HasKey(inv.events, EventKey(0, PriceChanged, ByObservation(o)))
  {
    hide RecordListingFacts, HasKey, KindsSince, ForeignKeys;
    var row := inv.observations[o];
    var ids := MatchingLinks(inv.links, row);
    WhereOne(inv.links, (l: Link) => Matches(l, row));
    assert inv.links[0].listing == 0 by { UpdateReads(inv, 0); }
    assert CaseOf(inv, o) == Updating(0);
    assert forall key: FieldKey :: key != RentKey ==> !Changes(inv, 0, o, key);
    assert Changes(inv, 0, o, RentKey);
    assert Unlogged(inv, o) <==> Silent(inv, 0, o, RentKey);
    UpdateShape(inv, o, 0, now);
    var touched := Touch(inv, 0, o);
    RecordShape(touched.facts, 0, row, o, now);
    var recorded := touched.(facts := RecordListingFacts(touched.facts, 0, row, o, now));
    var priced := ApplyField(recorded, 0, o, RentKey);
    assert ApplyFields(recorded, 0, o) == priced;
  }

  const FIRST := RentSeen(100, 1, "a")
  const SECOND := RentSeen(200, 2, "b")
  const THIRD := RentSeen(300, 3, "c")

  /** Three observations stored, none processed. */
  function Start(): Inventory {
    EMPTY_INVENTORY.(runs := [SourceRun(0, 0, SourceRunStatus.Pending, None)], observations := [FIRST, SECOND, THIRD])
  }

  /** The first observation finds nothing and opens a listing at a placeholder address. */
  lemma FirstIsNew()
    ensures CaseOf(Start(), 0).Adding?
  {
    var inv := Start();
    assert MatchingLinks(inv.links, FIRST) == [];
    assert StrongMatches(inv, 0, FIRST) == [];
    assert BuildingsAt([], 0) == [];
    assert Locate(inv.places, FIRST).Success?;
  }

  lemma FirstCreates()
    ensures ForeignKeys(Start())
    ensures
      var r := Normalized(Start(), 0, DiscoveryMethod.Direct, 0);
      && ForeignKeys(r) && r.observations == Start().observations && r.facts.overrides == []
      && |r.listings| == 1 && r.listings[0].rent == Some(100)
      && r.links == [NewLink(0, 0, FIRST, DiscoveryMethod.Direct, SourceNativeContinuity)]
      && r.events == [CreatedEvent(0, 0, 1)]
      && !Unlogged(Start(), 0)
  {
    hide CaseOf, Normalized, AddListing, MatchingLinks, RecordListingFacts;
    var inv := Start();
    NormalizedKeepsKeys(inv, 0, DiscoveryMethod.Direct, 0);
    NormalizedByCase(inv, 0, DiscoveryMethod.Direct, 0);
    FirstIsNew();
    var c := CaseOf(inv, 0);
    AddShape(inv.(places := c.places), 0, c.building, c.unit, DiscoveryMethod.Direct, 0);
  }

  function Processed(inv: Inventory, o: nat): Inventory
    requires ForeignKeys(inv)
  {
    Normalized(inv, o, DiscoveryMethod.Direct, 0)
  }

  /** After the first two observations the rent is the second's, and its change is logged under the second's key. */
  lemma AfterTwo() returns (b: Inventory)
    ensures ForeignKeys(Start()) && ForeignKeys(Processed(Start(), 0))
    ensures b == Processed(Processed(Start(), 0), 1)
    ensures ForeignKeys(b) && LogAgrees(b) && b.observations == Start().observations && b.facts.overrides == []
    ensures |b.listings| == 1 && b.listings[0].rent == Some(200) && |b.links| == 1 && Matches(b.links[0], FIRST)
    ensures b.links[0].latestObservation == 1 && b.links[0].lastSeenAt == 2
    ensures |b.events| == 2 && b.events[0].key.kind == EventKind.Created
    ensures b.events[1].key == EventKey(0, PriceChanged, ByObservation(1))
  {
    hide Normalized, ForeignKeys, LogAgrees, CaseOf, MatchingLinks, Unlogged;
    FirstCreates();
    assert LogAgrees(Start()) by { NothingToAgree(Start()); }
    NormalizeAgreesIff(Start(), 0, DiscoveryMethod.Direct, 0);
    var a := Processed(Start(), 0);
    RentUpdate(a, 1, 0);
    NormalizedKeepsKeys(a, 1, DiscoveryMethod.Direct, 0);
    NormalizeAgreesIff(a, 1, DiscoveryMethod.Direct, 0);
    b := Processed(a, 1);
  }

  /** After the third as well the log agrees, and a second pass over the second would find its event key spent. */
  lemma AfterThree() returns (c: Inventory)
    ensures ForeignKeys(Start()) && ForeignKeys(Processed(Start(), 0))
    ensures ForeignKeys(Processed(Processed(Start(), 0), 1))
    ensures c == Processed(Processed(Processed(Start(), 0), 1), 2)
    ensures ForeignKeys(c) && LogAgrees(c) && Unlogged(c, 1)
    ensures |c.listings| == 1 && c.listings[0].rent == Some(300)
    ensures |Processed(c, 1).listings| == 1 && Processed(c, 1).listings[0].rent == Some(200)
    ensures Processed(c, 1).events == c.events
  {
    hide Normalized, ForeignKeys, LogAgrees, CaseOf, MatchingLinks, Unlogged;
    var b := AfterTwo();
    RentUpdate(b, 2, 0);
    NormalizedKeepsKeys(b, 2, DiscoveryMethod.Direct, 0);
    NormalizeAgreesIff(b, 2, DiscoveryMethod.Direct, 0);
    c := Processed(b, 2);
    assert c.events[1].key == EventKey(0, PriceChanged, ByObservation(1));
    RentUpdate(c, 1, 0);
  }

  /** The three observations arrive in a run from the empty database. */
  lemma Stored() returns (steps: seq<Step>)
    ensures FromEmpty(steps) == Start()
  {
    hide FromEmpty, ForeignKeys;
    steps := OneRun();
    Extend(steps, Observe(FIRST));
    steps := steps + [Observe(FIRST)];
    Extend(steps, Observe(SECOND));
    steps := steps + [Observe(SECOND)];
    Extend(steps, Observe(THIRD));
    steps := steps + [Observe(THIRD)];
  }

  /** Observation `o` is processed next. */
  lemma ProcessNext(steps: seq<Step>, o: nat) returns (more: seq<Step>)
    ensures more == steps + [NormalizeStep(o, DiscoveryMethod.Direct, 0)]
    ensures FromEmpty(more) == Processed(FromEmpty(steps), o)
  {
    hide FromEmpty, ForeignKeys, Normalized;
    more := steps + [NormalizeStep(o, DiscoveryMethod.Direct, 0)];
    Extend(steps, NormalizeStep(o, DiscoveryMethod.Direct, 0));
  }

  /**
   * Processing 1, 2, 3 and then 2 again, from the empty database: the log agreed, the second pass over 2 sets its older
   * rent, and no event says so.
   */
  lemma StaleReplayLosesAnEvent() returns (before: seq<Step>)
    ensures |FromEmpty(before).listings| == 1 && FromEmpty(before).listings[0].rent == Some(300)
    ensures LogAgrees(FromEmpty(before))
    ensures
      var after := FromEmpty(before + [NormalizeStep(1, DiscoveryMethod.Direct, 0)]);
      && |after.listings| == 1 && after.listings[0].rent == Some(200)
      && after.events == FromEmpty(before).events && !LogAgrees(after)
  {
    hide FromEmpty, ForeignKeys, LogAgrees, Processed, Unlogged;
    var stored := Stored();
    var one := ProcessNext(stored, 0);
    var two := ProcessNext(one, 1);
    before := ProcessNext(two, 2);
    var c := AfterThree();
    var again := ProcessNext(before, 1);
    NotLogged(c);
  }

  lemma NotLogged(c: Inventory)
    requires ForeignKeys(c) && LogAgrees(c) && Unlogged(c, 1)
    ensures !LogAgrees(Processed(c, 1))
  {
    hide ForeignKeys, LogAgrees, Unlogged, Normalized;
    NormalizeAgreesIff(c, 1, DiscoveryMethod.Direct, 0);
  }

  lemma NothingToAgree(inv: Inventory)
    requires inv.listings == []
    ensures LogAgrees(inv)
  {
  }
}
