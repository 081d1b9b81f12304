/** An observation that was processed has a link of its identity for good. */
module KnownLinks {
  import opened Prelude
  import opened Schema
  import opened Normalization
  import opened Engine
  import opened Shapes
  import opened EventLogRuns

  /** Some link has the observation's identity. */
  ghost predicate HasLink(inv: Inventory, o: nat) {
    o < |inv.observations| && exists k: nat :: k < |inv.links| && Matches(inv.links[k], inv.observations[o])
  }

  lemma NormalizeAgesLinks(inv: Inventory, o: nat, via: DiscoveryMethod, now: Time)
    requires ForeignKeys(inv)
    ensures LinksAge(inv.links, Normalized(inv, o, via, now).links)
    ensures Normalized(inv, o, via, now).observations == inv.observations
    ensures !CaseOf(inv, o).Nothing? ==> HasLink(Normalized(inv, o, via, now), o)
  {
    hide AddListing, UpdateExisting, PlacesGrow, PlacesRefer, Normalized, CaseOf, ForeignKeys, Emit, RecordListingFacts,
      FirstListing, MatchingLinks;
    NormalizedByCase(inv, o, via, now);
    var r := Normalized(inv, o, via, now);
    match CaseOf(inv, o)
    case Nothing =>
    case Attaching(places, listing, identity) =>
      assert Matches(r.links[|inv.links|], r.observations[o]);
    case Adding(places, building, unit) =>
      AddShape(inv.(places := places), o, building, unit, via, now);
      assert Matches(r.links[|inv.links|], r.observations[o]);
    case Updating(k) =>
      UpdateShape(inv, o, k, now);
      OnlyLinkMatches(inv, o, k);
      assert Matches(r.links[k], r.observations[o]);
  }

  lemma StepKeepsLink(inv: Inventory, step: Step, o: nat)
    requires ForeignKeys(inv) && HasLink(inv, o)
    ensures HasLink(Apply(inv, step), o)
  {
    hide ForeignKeys, Normalized, Apply, CaseOf, Matches;
    var k: nat :| k < |inv.links| && Matches(inv.links[k], inv.observations[o]);
    if step.NormalizeStep? {
      NormalizeApplies(inv, step);
      NormalizeAgesLinks(inv, step.observation, step.via, step.now);
    } else {
      OtherStepIsQuiet(inv, step);
    }
    SameMatch(inv.links, Apply(inv, step).links, k, inv.observations[o]);
  }

  lemma SameMatch(before: seq<Link>, after: seq<Link>, k: nat, row: Observation)
    requires LinksAge(before, after) && k < |before| && Matches(before[k], row)
    ensures k < |after| && Matches(after[k], row)
  {
  }

  lemma {:induction false} RunKeepsLink(inv: Inventory, steps: seq<Step>, o: nat)
    requires ForeignKeys(inv) && HasLink(inv, o)
    ensures HasLink(Run(inv, steps), o)
    decreases |steps|
  {
    hide ForeignKeys, Apply, HasLink;
    if steps != [] {
      ApplyKeepsKeys(inv, steps[0]);
      StepKeepsLink(inv, steps[0], o);
      RunKeepsLink(Apply(inv, steps[0]), steps[1..], o);
    }
  }

  lemma LinkedIsNotCreated(inv: Inventory, o: nat)
    requires HasLink(inv, o)
    ensures CaseOf(inv, o).Nothing? || CaseOf(inv, o).Updating?
  {
    var k: nat :| k < |inv.links| && Matches(inv.links[k], inv.observations[o]);
    assert k in MatchingLinks(inv.links, inv.observations[o]);
  }

  /** What was processed without an error has its link. */
  lemma ProcessedHasLink(inv: Inventory, o: nat, via: DiscoveryMethod, now: Time)
    requires ForeignKeys(inv) && Processes(inv, o)
    ensures HasLink(Normalized(inv, o, via, now), o)
  {
    hide ForeignKeys, Processes, Normalized, HasLink, CaseOf;
    ProcessesByCase(inv, o);
    NormalizeAgesLinks(inv, o, via, now);
  }
}
