/** Which pairs of listings are proposed for human review, and that no pair is ever proposed twice. */
module DuplicateProposals {
  import opened Prelude
  import opened Schema
  import opened Normalization
  import opened MergeService
  import opened Engine
  import opened Shapes
  import Disappearance
  import Admission

  predicate PairsUnique(candidates: seq<DuplicateCandidate>) {
    forall c, d :: 0 <= c < d < |candidates| ==>
      candidates[c].a != candidates[d].a || candidates[c].b != candidates[d].b
  }

  /** The new listing and a similar one among the first `upTo`, lower id first. */
  predicate Similar(listings: seq<Listing>, building: nat, listing: nat, upTo: nat, x: nat, y: nat)
    requires listing < |listings| && upTo <= |listings|
  {
    exists other: nat :: other < upTo && PossibleDuplicateOf(listings, building, listing, other)
      && x == Min(listing, other) && y == Max(listing, other)
  }

  lemma ProposedPair(inv: Inventory, listing: nat, other: nat, x: nat, y: nat)
    requires listing < |inv.listings| && other < |inv.listings|
    requires inv.listings[listing].rent.Some? && inv.listings[other].rent.Some?
    ensures PairKnown(ProposePair(inv, listing, other).candidates, x, y) <==>
              PairKnown(inv.candidates, x, y) || (x == Min(listing, other) && y == Max(listing, other))
    ensures PairsUnique(inv.candidates) ==> PairsUnique(ProposePair(inv, listing, other).candidates)
  {
    var a, b := Min(listing, other), Max(listing, other);
    var after := ProposePair(inv, listing, other).candidates;
    if !PairKnown(inv.candidates, a, b) {
      assert after[|inv.candidates|].a == a && after[|inv.candidates|].b == b;
      if PairKnown(inv.candidates, x, y) {
        var c :| 0 <= c < |inv.candidates| && inv.candidates[c].a == x && inv.candidates[c].b == y;
        assert after[c] == inv.candidates[c];
      }
    }
  }

  /** The loop proposes exactly the similar listings visited, and no pair a second time. */
  lemma {:induction false} LoopProposes(inv: Inventory, building: nat, listing: nat, upTo: nat, x: nat, y: nat)
    requires listing < |inv.listings| && upTo <= |inv.listings|
    ensures PairKnown(ProposeDuplicates(inv, building, listing, upTo).candidates, x, y) <==>
              PairKnown(inv.candidates, x, y) || Similar(inv.listings, building, listing, upTo, x, y)
    ensures PairsUnique(inv.candidates) ==> PairsUnique(ProposeDuplicates(inv, building, listing, upTo).candidates)
  {
    hide PossibleDuplicateOf, PairKnown, PairsUnique, ProposePair;
    if upTo > 0 {
      var before := ProposeDuplicates(inv, building, listing, upTo - 1);
      LoopProposes(inv, building, listing, upTo - 1, x, y);
      if PossibleDuplicateOf(inv.listings, building, listing, upTo - 1) {
        RentsOf(inv.listings, building, listing, upTo - 1);
        ProposedPair(before, listing, upTo - 1, x, y);
      }
    }
  }

  lemma RentsOf(listings: seq<Listing>, building: nat, listing: nat, other: nat)
    requires listing < |listings| && other < |listings| && PossibleDuplicateOf(listings, building, listing, other)
    ensures listings[listing].rent.Some? && listings[other].rent.Some?
  {
  }

  /**
   * A new listing is paired with exactly the other unmerged listings of its building that have its layout and a rent
   * within two percent of its own, provided its own layout and rent are stated; pairs known before stay known.
   */
  lemma ProposesExactlySimilar(inv: Inventory, building: nat, listing: nat, x: nat, y: nat)
    requires listing < |inv.listings|
    ensures PairKnown(GenerateDuplicateCandidates(inv, building, listing).candidates, x, y) <==>
              || PairKnown(inv.candidates, x, y)
              || (HasLayoutEvidence(inv.listings[listing].layout)
                  && Similar(inv.listings, building, listing, |inv.listings|, x, y))
    ensures PairsUnique(inv.candidates) ==> PairsUnique(GenerateDuplicateCandidates(inv, building, listing).candidates)
  {
    hide PairKnown, PairsUnique, ProposeDuplicates;
    LoopProposes(inv, building, listing, |inv.listings|, x, y);
  }

  /** Another unmerged listing of the building, of the same layout, its rent within two percent of the listing's. */
  predicate Alike(listings: seq<Listing>, building: nat, listing: nat, other: nat) {
    && listing < |listings| && other < |listings| && other != listing
    && listings[other].building == building && listings[other].layout == listings[listing].layout
    && listings[other].lifecycle != Lifecycle.Merged
    && listings[listing].rent.Some? && listings[other].rent.Some?
    && var x, y := listings[listing].rent.value, listings[other].rent.value;
       100 * (y - x) <= 2 * x && 100 * (x - y) <= 2 * x
  }

  /** A PENDING candidate of the listing and one alike, lower id first, with the difference of their rents. */
  predicate Proposes(row: DuplicateCandidate, listings: seq<Listing>, building: nat, listing: nat) {
    && row.a < row.b && (row.a == listing || row.b == listing) && row.status == CandidateStatus.Pending
    && var other := if row.a == listing then row.b else row.a;
       && Alike(listings, building, listing, other)
       && var x, y := listings[listing].rent.value, listings[other].rent.value;
          row.rentDelta == if x < y then y - x else x - y
  }

  /** From `base` on every new candidate is a proposal, and brings its one OPEN review issue. */
  predicate NewProposals(inv: Inventory, r: Inventory, building: nat, listing: nat) {
    && inv.candidates <= r.candidates && inv.facts.issues <= r.facts.issues
    && |r.facts.issues| - |inv.facts.issues| == |r.candidates| - |inv.candidates|
    && (forall c :: |inv.candidates| <= c < |r.candidates| ==>
          && Proposes(r.candidates[c], inv.listings, building, listing)
          && r.facts.issues[|inv.facts.issues| + c - |inv.candidates|]
               == Issue(r.candidates[c].a, PossibleDuplicate(c), IssueStatus.Open))
  }

  lemma {:induction false} LoopColumns(inv: Inventory, building: nat, listing: nat, upTo: nat)
    requires listing < |inv.listings| && upTo <= |inv.listings|
    ensures NewProposals(inv, ProposeDuplicates(inv, building, listing, upTo), building, listing)
  {
    if upTo > 0 {
      LoopColumns(inv, building, listing, upTo - 1);
    }
  }

  lemma AlikeIsPossible(listings: seq<Listing>, building: nat, listing: nat, other: nat)
    requires listing < |listings| && other < |listings|
    ensures PossibleDuplicateOf(listings, building, listing, other) <==> Alike(listings, building, listing, other)
  {
  }

  /**
   * What a new listing is compared with, in columns: every new candidate is a proposal with its issue, and every
   * listing alike is paired with it, unless its layout is UNKNOWN or CONFLICTING.
   */
  lemma ProposalColumns(inv: Inventory, building: nat, listing: nat)
    requires listing < |inv.listings|
    ensures
      var r := GenerateDuplicateCandidates(inv, building, listing);
      && NewProposals(inv, r, building, listing)
      && (inv.listings[listing].layout in {LayoutClass.Unknown, LayoutClass.Conflicting} ==> r == inv)
      && (inv.listings[listing].layout !in {LayoutClass.Unknown, LayoutClass.Conflicting} ==>
            forall other: nat :: Alike(inv.listings, building, listing, other) ==>
              exists c :: 0 <= c < |r.candidates| && r.candidates[c].a == (if listing < other then listing else other)
                && r.candidates[c].b == (if listing < other then other else listing))
  {
    hide ProposeDuplicates, NewProposals, Alike;
    var r := GenerateDuplicateCandidates(inv, building, listing);
    LoopColumns(inv, building, listing, |inv.listings|);
    assert NewProposals(inv, inv, building, listing) by { NothingProposed(inv, building, listing); }
    forall other: nat |
        Alike(inv.listings, building, listing, other) && HasLayoutEvidence(inv.listings[listing].layout)
      ensures PairKnown(r.candidates, Min(listing, other), Max(listing, other))
    {
      AlikeExists(inv.listings, building, listing, other);
      AlikeIsPossible(inv.listings, building, listing, other);
      ProposesExactlySimilar(inv, building, listing, Min(listing, other), Max(listing, other));
    }
  }

  lemma NothingProposed(inv: Inventory, building: nat, listing: nat)
    ensures NewProposals(inv, inv, building, listing)
  {
  }

  lemma AlikeExists(listings: seq<Listing>, building: nat, listing: nat, other: nat)
    requires Alike(listings, building, listing, other)
    ensures other < |listings|
  {
  }

  /** A listing that processing opens is compared so, with every listing there is. */
  lemma OpeningProposes(inv: Inventory, o: nat, building: nat, unit: Option<nat>, via: DiscoveryMethod, now: Time)
    requires o < |inv.observations|
    ensures
      var r := AddListing(inv, o, building, unit, via, now).after;
      && NewProposals(inv.(listings := r.listings), r, building, |inv.listings|)
      && (inv.observations[o].parsed.layout !in {LayoutClass.Unknown, LayoutClass.Conflicting} ==>
            forall other: nat :: Alike(r.listings, building, |inv.listings|, other) ==>
              exists c :: 0 <= c < |r.candidates| && r.candidates[c].a == other && r.candidates[c].b == |inv.listings|)
  {
    hide RecordListingFacts, Emit, GenerateDuplicateCandidates, ProposesOnly;
    var inserted := InsertListing(inv, o, building, unit, via, now);
    RecordShape(inv.facts, |inv.listings|, inv.observations[o], o, now);
    ProposalColumns(inserted, building, |inv.listings|);
    assert ProposesOnly(inserted, GenerateDuplicateCandidates(inserted, building, |inv.listings|));
    OnlyProposals(inserted, GenerateDuplicateCandidates(inserted, building, |inv.listings|));
  }

  lemma OnlyProposals(inv: Inventory, r: Inventory)
    requires ProposesOnly(inv, r)
    ensures r.listings == inv.listings
  {
  }

  // ---------------------------------------------------------------- over whole runs

  lemma AddKeepsPairs(inv: Inventory, o: nat, building: nat, unit: Option<nat>, via: DiscoveryMethod, now: Time)
    requires o < |inv.observations| && PairsUnique(inv.candidates)
    ensures PairsUnique(AddListing(inv, o, building, unit, via, now).after.candidates)
  {
    hide PairsUnique, GenerateDuplicateCandidates, RecordListingFacts, Emit;
    ProposesExactlySimilar(InsertListing(inv, o, building, unit, via, now), building, |inv.listings|, 0, 0);
  }

  lemma NormalizeKeepsPairs(inv: Inventory, o: nat, via: DiscoveryMethod, now: Time)
    requires ForeignKeys(inv) && PairsUnique(inv.candidates)
    ensures PairsUnique(Normalized(inv, o, via, now).candidates)
  {
    hide AddListing, UpdateExisting, PlacesGrow, PlacesRefer, Normalized, CaseOf, MatchingLinks,
      PairsUnique, ForeignKeys;
    NormalizedByCase(inv, o, via, now);
    match CaseOf(inv, o)
    case Nothing =>
    case Attaching(places, listing, identity) =>
    case Adding(places, building, unit) => AddKeepsPairs(inv.(places := places), o, building, unit, via, now);
    case Updating(k) => UpdateShape(inv, o, k, now);
  }

  /** Steps other than normalization settle a candidate at most. */
  lemma OtherStepKeepsPairs(inv: Inventory, step: Step)
    requires ForeignKeys(inv) && !step.NormalizeStep?
    ensures
      var after := Apply(inv, step).candidates;
      && |after| == |inv.candidates|
      && (forall c :: 0 <= c < |after| ==> after[c].a == inv.candidates[c].a && after[c].b == inv.candidates[c].b)
  {
    hide ForeignKeys, Normalized, Admission.EvaluateRows, Disappearance.ProcessSourceRun, Emit, MovedLinks, Relink,
      MoveBack, CloseIssues, Admission.IsSelection;
    match step {
      case DisappearStep(run, now) => DisappearanceShape(inv, run, now);
      case ReverseStep(m, actor, now) =>
        if CheckReverse(inv.merges, m, actor).None? { ReverseKeepsKeys(inv, m, now); }
      case NormalizeStep(_, _, _) =>
      case _ =>
    }
  }

  /** In every run no pair of listings is proposed twice, whatever verdicts, merges and reversals happen in between. */
  lemma {:induction false} NoPairTwice(inv: Inventory, steps: seq<Step>)
    requires ForeignKeys(inv) && PairsUnique(inv.candidates)
    ensures PairsUnique(Run(inv, steps).candidates)
    decreases |steps|
  {
    hide ForeignKeys, Apply;
    if steps != [] {
      ApplyKeepsKeys(inv, steps[0]);
      if steps[0].NormalizeStep? {
        NormalizeKeepsPairs(inv, steps[0].observation, steps[0].via, steps[0].now);
        NormalizeApplies(inv, steps[0]);
      } else {
        OtherStepKeepsPairs(inv, steps[0]);
      }
      NoPairTwice(Apply(inv, steps[0]), steps[1..]);
    }
  }
}
