/** The inventory as one state machine: every service call is a step, every failed transaction a no-op. */
module Engine {
  import opened Prelude
  import opened Schema
  import opened FactHistory
  import opened Normalization
  import opened MergeService
  import Disappearance
  import Admission

  // ---------------------------------------------------------------- what normalization does, in four cases

  /** Rows are only added, and an address enters the table without a boundary verdict. */
  predicate PlacesGrow(p: Places, q: Places) {
    && p.addresses <= q.addresses && p.buildings <= q.buildings && p.units <= q.units
    && (forall a :: |p.addresses| <= a < |q.addresses| ==> q.addresses[a].boundary == Boundary.Unresolved)
  }

  /** `places` are the tables after the building chain was found or created. */
  datatype NormalizationCase =
    | Nothing
    | Attaching(places: Places, listing: nat, identity: IdentityMethod)
    | Adding(places: Places, building: nat, unit: Option<nat>)
    | Updating(link: nat)

  function UnitCase(inv: Inventory, places: Places, o: nat, building: nat, key: string): NormalizationCase
    requires o < |inv.observations|
  {
    var unit := OneOrNone(UnitsAt(places.units, building, key));
    if unit.Failure? then
      Nothing
    else if unit.value.Some? then
      var existing := LatestSeen(inv.listings, ListingsOfUnit(inv.listings, unit.value.value));
      if existing.Some? then Attaching(places, existing.value, ExactAddressAndUnit)
      else Adding(places, building, unit.value)
    else
      var units := places.units + [Unit(building, key, inv.observations[o].parsed.layout)];
      Adding(places.(units := units), building, Some(|places.units|))
  }

  /** The creating case once the building is known. */
  function CreatingCase(inv: Inventory, places: Places, o: nat, building: nat): NormalizationCase
    requires o < |inv.observations|
  {
    var key := inv.observations[o].parsed.unitKey;
    if key.Some? then
      UnitCase(inv, places, o, building, key.value)
    else
      var strong := StrongMultiFieldMatch(inv.(places := places), building, inv.observations[o]);
      if strong.Some? then Attaching(places, strong.value, StrongMultiField) else Adding(places, building, None)
  }

  function CaseOf(inv: Inventory, o: nat): NormalizationCase {
    if o >= |inv.observations| || !Usable(inv.observations[o]) then
      Nothing
    else
      var row := inv.observations[o];
      var link := OneOrNone(MatchingLinks(inv.links, row));
      if link.Failure? then
        Nothing
      else if link.value.Some? then
        Updating(link.value.value)
      else
        var located := Locate(inv.places, row);
        if located.Failure? then
          Nothing
        else
          CreatingCase(inv, located.value.0, o, located.value.1)
  }

  /** The places of a creating case are grown, consistent, and hold the building and unit it names. */
  predicate CaseSound(inv: Inventory, o: nat, c: NormalizationCase) {
    match c
    case Nothing => true
    case Attaching(places, listing, _) =>
      && o < |inv.observations| && MatchingLinks(inv.links, inv.observations[o]) == []
      && PlacesGrow(inv.places, places) && PlacesRefer(places)
      && listing < |inv.listings| && inv.listings[listing].lifecycle != Lifecycle.Merged
    case Adding(places, building, unit) =>
      && o < |inv.observations| && MatchingLinks(inv.links, inv.observations[o]) == []
      && PlacesGrow(inv.places, places) && PlacesRefer(places)
      && building < |places.buildings| && (unit.Some? ==> unit.value < |places.units|)
    case Updating(k) =>
      o < |inv.observations| && k < |inv.links| && MatchingLinks(inv.links, inv.observations[o]) == [k]
  }

  function CaseResult(inv: Inventory, o: nat, c: NormalizationCase, via: DiscoveryMethod, now: Time): Inventory
    requires ForeignKeys(inv) && CaseSound(inv, o, c)
  {
    match c
    case Nothing => inv
    case Attaching(places, listing, identity) => Attach(inv.(places := places), o, listing, via, identity)
    case Adding(places, building, unit) => AddListing(inv.(places := places), o, building, unit, via, now).after
    case Updating(k) => UpdateExisting(inv, o, k, now).after
  }

  lemma LocateGrows(p: Places, row: Observation)
    requires PlacesRefer(p) && Locate(p, row).Success?
    ensures PlacesGrow(p, Locate(p, row).value.0) && PlacesRefer(Locate(p, row).value.0)
    ensures Locate(p, row).value.0.units == p.units
    ensures Locate(p, row).value.1 < |Locate(p, row).value.0.buildings|
  {
  }

  lemma UnitCaseIsSound(inv: Inventory, places: Places, o: nat, building: nat, key: string)
    requires o < |inv.observations| && MatchingLinks(inv.links, inv.observations[o]) == []
    requires PlacesGrow(inv.places, places) && PlacesRefer(places) && building < |places.buildings|
    ensures CaseSound(inv, o, UnitCase(inv, places, o, building, key))
  {
    hide LatestSeen, MatchingLinks;
    var unit := OneOrNone(UnitsAt(places.units, building, key));
    if unit.Success? && unit.value.Some? {
      var ids := ListingsOfUnit(inv.listings, unit.value.value);
      var existing := LatestSeen(inv.listings, ids);
      if existing.Some? {
        var a :| 0 <= a < |ids| && ids[a] == existing.value;
      }
    }
  }

  lemma CreatingCaseIsSound(inv: Inventory, places: Places, o: nat, building: nat)
    requires o < |inv.observations| && MatchingLinks(inv.links, inv.observations[o]) == []
    requires PlacesGrow(inv.places, places) && PlacesRefer(places) && building < |places.buildings|
    ensures CaseSound(inv, o, CreatingCase(inv, places, o, building))
  {
    hide MatchingLinks, UnitCase, PlacesRefer;
    if inv.observations[o].parsed.unitKey.Some? {
      UnitCaseIsSound(inv, places, o, building, inv.observations[o].parsed.unitKey.value);
    }
  }

  lemma CreatingCaseResult(
      inv: Inventory, places: Places, o: nat, building: nat, via: DiscoveryMethod, now: Time)
    requires ForeignKeys(inv)
    requires o < |inv.observations| && CaseSound(inv, o, CreatingCase(inv, places, o, building))
    ensures
      var at := inv.(places := places);
      var key := inv.observations[o].parsed.unitKey;
      var r := if key.Some? then CreateInUnit(at, o, building, key.value, via, now)
               else Success(CreateWithoutUnit(at, o, building, via, now));
      (if r.Success? then r.value.after else inv)
        == CaseResult(inv, o, CreatingCase(inv, places, o, building), via, now)
  {
    hide ForeignKeys, AddListing, Attach, UpdateExisting, LatestSeen, StrongMultiFieldMatch, UnitsAt, MatchingLinks;
  }

  /** Every run of `process_observation` is one of the four cases, on sound data. */
  lemma NormalizedByCase(inv: Inventory, o: nat, via: DiscoveryMethod, now: Time)
    requires ForeignKeys(inv)
    ensures CaseSound(inv, o, CaseOf(inv, o))
    ensures Normalized(inv, o, via, now) == CaseResult(inv, o, CaseOf(inv, o), via, now)
  {
    hide Locate, CreatingCase, CreateInUnit, CreateWithoutUnit, UpdateExisting, AddListing, Attach, PlacesRefer;
    if o < |inv.observations| && Usable(inv.observations[o]) && MatchingLinks(inv.links, inv.observations[o]) == [] {
      var row := inv.observations[o];
      if Locate(inv.places, row).Success? {
        assert PlacesRefer(inv.places);
        LocateGrows(inv.places, row);
        var (places, building) := Locate(inv.places, row).value;
        CreatingCaseIsSound(inv, places, o, building);
        CreatingCaseResult(inv, places, o, building, via, now);
      }
    }
  }

  lemma CaseIsSound(inv: Inventory, o: nat)
    requires ForeignKeys(inv)
    ensures CaseSound(inv, o, CaseOf(inv, o))
  {
    NormalizedByCase(inv, o, DiscoveryMethod.Unknown, 0);
  }

  /** The observation is usable and processing it raises no error. */
  predicate Processes(inv: Inventory, o: nat)
    requires ForeignKeys(inv)
  {
    && o < |inv.observations| && Usable(inv.observations[o])
    && ProcessObservation(inv, o, DiscoveryMethod.Direct, 0).Success?
  }

  lemma ProcessesByCase(inv: Inventory, o: nat)
    requires ForeignKeys(inv)
    ensures Processes(inv, o) <==> !CaseOf(inv, o).Nothing?
  {
    hide ForeignKeys, AddListing, Attach, UpdateExisting, LatestSeen, StrongMultiFieldMatch, UnitsAt,
      MatchingLinks, Locate;
  }

  lemma ProcessesUsable(inv: Inventory, o: nat)
    requires ForeignKeys(inv) && Processes(inv, o)
    ensures o < |inv.observations| && Usable(inv.observations[o])
  {
  }

  /** Whether it raises an error depends neither on the discovery method nor on the clock. */
  lemma SuccessIsSuccess(inv: Inventory, o: nat, via: DiscoveryMethod, now: Time)
    requires ForeignKeys(inv) && o < |inv.observations| && Usable(inv.observations[o])
    ensures ProcessObservation(inv, o, via, now).Success? <==> Processes(inv, o)
  {
    hide ForeignKeys, AddListing, Attach, UpdateExisting, LatestSeen, StrongMultiFieldMatch, UnitsAt,
      MatchingLinks, Locate;
  }

  // ---------------------------------------------------------------- foreign keys

  lemma PlacesKeepKeys(inv: Inventory, places: Places)
    requires ForeignKeys(inv) && PlacesGrow(inv.places, places) && PlacesRefer(places)
    ensures ForeignKeys(inv.(places := places))
  {
  }

  lemma AttachKeepsKeys(inv: Inventory, o: nat, listing: nat, via: DiscoveryMethod, identity: IdentityMethod)
    requires ForeignKeys(inv) && o < |inv.observations| && listing < |inv.listings|
    ensures ForeignKeys(Attach(inv, o, listing, via, identity))
  {
  }

  lemma InsertKeepsKeys(inv: Inventory, o: nat, building: nat, unit: Option<nat>, via: DiscoveryMethod, now: Time)
    requires ForeignKeys(inv) && o < |inv.observations|
    requires building < |inv.places.buildings| && (unit.Some? ==> unit.value < |inv.places.units|)
    ensures ForeignKeys(InsertListing(inv, o, building, unit, via, now))
  {
    hide RecordListingFacts, HasKey;
  }

  lemma {:induction false} ProposalsKeepKeys(inv: Inventory, building: nat, listing: nat, upTo: nat)
    requires ForeignKeys(inv) && listing < |inv.listings| && upTo <= |inv.listings|
    ensures ForeignKeys(ProposeDuplicates(inv, building, listing, upTo))
  {
    if upTo > 0 {
      ProposalsKeepKeys(inv, building, listing, upTo - 1);
    }
  }

  lemma AddKeepsKeys(inv: Inventory, o: nat, building: nat, unit: Option<nat>, via: DiscoveryMethod, now: Time)
    requires ForeignKeys(inv) && o < |inv.observations|
    requires building < |inv.places.buildings| && (unit.Some? ==> unit.value < |inv.places.units|)
    ensures ForeignKeys(AddListing(inv, o, building, unit, via, now).after)
  {
    hide InsertListing, ForeignKeys, ProposeDuplicates;
    InsertKeepsKeys(inv, o, building, unit, via, now);
    var inserted := InsertListing(inv, o, building, unit, via, now);
    ProposalsKeepKeys(inserted, building, |inv.listings|, |inserted.listings|);
  }

  lemma TouchKeepsKeys(inv: Inventory, k: nat, o: nat)
    requires ForeignKeys(inv) && k < |inv.links| && o < |inv.observations|
    ensures ForeignKeys(Touch(inv, k, o))
  {
  }

  lemma ApplyFieldKeepsKeys(inv: Inventory, i: nat, o: nat, key: FactKey)
    requires ForeignKeys(inv) && i < |inv.listings| && o < |inv.observations| && key != LayoutKey
    ensures ForeignKeys(ApplyField(inv, i, o, key))
  {
    hide RaiseConflict, Proposed, FieldOf, HasKey, Overridden;
  }

  lemma UpdateReads(inv: Inventory, k: nat)
    requires ForeignKeys(inv) && k < |inv.links|
    ensures inv.links[k].listing < |inv.listings| && inv.links[k].latestObservation < |inv.observations|
  {
  }

  lemma TouchShape(inv: Inventory, k: nat, o: nat)
    requires ForeignKeys(inv) && k < |inv.links| && o < |inv.observations|
    ensures |Touch(inv, k, o).listings| == |inv.listings| && Touch(inv, k, o).events == inv.events
    ensures Touch(inv, k, o).observations == inv.observations
  {
  }

  lemma FactsKeepKeys(inv: Inventory, facts: Facts)
    requires ForeignKeys(inv)
    ensures ForeignKeys(inv.(facts := facts))
  {
  }

  lemma StampKeepsKeys(inv: Inventory, i: nat, at: Time, emitted: seq<EventKind>)
    requires ForeignKeys(inv) && i < |inv.listings|
    ensures ForeignKeys(StampChange(inv, i, at, emitted))
  {
  }

  lemma UpdateKeepsKeys(inv: Inventory, o: nat, k: nat, now: Time)
    requires ForeignKeys(inv) && o < |inv.observations| && k < |inv.links|
    ensures ForeignKeys(UpdateExisting(inv, o, k, now).after)
  {
    hide Touch, RecordListingFacts, ApplyField, KindsSince, ForeignKeys;
    assert inv.links[k].listing < |inv.listings| && inv.links[k].latestObservation < |inv.observations| by {
      UpdateReads(inv, k);
    }
    var i := inv.links[k].listing;
    TouchKeepsKeys(inv, k, o);
    var touched := Touch(inv, k, o);
    TouchShape(inv, k, o);
    var recorded := touched.(facts := RecordListingFacts(touched.facts, i, inv.observations[o], o, now));
    FactsKeepKeys(touched, recorded.facts);
    var rent := ApplyField(recorded, i, o, RentKey);
    ApplyFieldKeepsKeys(recorded, i, o, RentKey);
    var availability := ApplyField(rent, i, o, AvailabilityKey);
    ApplyFieldKeepsKeys(rent, i, o, AvailabilityKey);
    var laundry := ApplyField(availability, i, o, LaundryKey);
    ApplyFieldKeepsKeys(availability, i, o, LaundryKey);
    StampKeepsKeys(laundry, i, inv.observations[o].observedAt, KindsSince(inv.events, laundry.events));
  }

  lemma NormalizedKeepsKeys(inv: Inventory, o: nat, via: DiscoveryMethod, now: Time)
    requires ForeignKeys(inv)
    ensures ForeignKeys(Normalized(inv, o, via, now))
  {
    hide ForeignKeys, AddListing, Attach, UpdateExisting, PlacesGrow, PlacesRefer, Normalized, CaseOf, MatchingLinks;
    NormalizedByCase(inv, o, via, now);
    match CaseOf(inv, o)
    case Nothing =>
    case Attaching(places, listing, identity) =>
      PlacesKeepKeys(inv, places);
      AttachKeepsKeys(inv.(places := places), o, listing, via, identity);
    case Adding(places, building, unit) =>
      PlacesKeepKeys(inv, places);
      AddKeepsKeys(inv.(places := places), o, building, unit, via, now);
    case Updating(k) =>
      UpdateKeepsKeys(inv, o, k, now);
  }

  lemma MergeKeepsKeys(inv: Inventory, source: nat, target: nat, now: Time)
    requires ForeignKeys(inv) && source < |inv.listings| && target < |inv.listings| && source != target
    ensures ForeignKeys(DoMerge(inv, source, target, now))
  {
    hide HasKey;
  }

  lemma ReverseKeepsKeys(inv: Inventory, m: nat, now: Time)
    requires ForeignKeys(inv) && m < |inv.merges|
    ensures inv.merges[m].source < |inv.listings|
    ensures ForeignKeys(DoReverse(inv, m, now))
  {
    assert MergeRefers(inv.merges[m], inv);
  }

  lemma SettleKeepsKeys(inv: Inventory, c: nat, status: CandidateStatus)
    requires ForeignKeys(inv) && c < |inv.candidates|
    ensures ForeignKeys(Settle(inv, c, status))
  {
  }

  lemma VerdictKeepsKeys(inv: Inventory, c: nat, verdict: Verdict, actor: Actor, now: Time)
    requires ForeignKeys(inv) && ResolveDuplicateCandidate(inv, c, verdict, actor, now).Success?
    ensures ForeignKeys(ResolveDuplicateCandidate(inv, c, verdict, actor, now).value)
  {
    hide ForeignKeys, Settle;
    if verdict.duplicate {
      var away, survivor := MergedAway(inv.candidates[c], verdict), Survivor(inv.candidates[c], verdict);
      MergeKeepsKeys(inv, away, survivor, now);
      SettleKeepsKeys(DoMerge(inv, away, survivor, now), c, ConfirmedDuplicate);
    } else {
      SettleKeepsKeys(inv, c, ConfirmedDistinct);
    }
  }

  lemma SweepLinkKeepsKeys(inv: Inventory, k: nat, run: nat, now: Time)
    requires ForeignKeys(inv) && k < |inv.links| && run < |inv.runs|
    ensures ForeignKeys(Disappearance.SweepLink(inv, k, run, now))
  {
    hide Disappearance.NextStatus, Disappearance.StartsMissing, HasKey;
    assert LinkRefers(inv.links[k], inv);
  }

  lemma {:induction false} SweepKeepsKeys(inv: Inventory, run: nat, now: Time, upTo: nat)
    requires ForeignKeys(inv) && upTo <= |inv.links| && run < |inv.runs|
    ensures ForeignKeys(Disappearance.Sweep(inv, run, now, upTo))
  {
    hide ForeignKeys, Disappearance.SweepLink;
    if upTo > 0 {
      SweepKeepsKeys(inv, run, now, upTo - 1);
      SweepLinkKeepsKeys(Disappearance.Sweep(inv, run, now, upTo - 1), upTo - 1, run, now);
    }
  }

  lemma {:induction false} InactivateAllKeepsKeys(inv: Inventory, ids: seq<nat>, now: Time)
    requires ForeignKeys(inv) && forall a :: 0 <= a < |ids| ==> ids[a] < |inv.listings|
    ensures ForeignKeys(Disappearance.InactivateAll(inv, ids, now))
  {
    if ids != [] {
      InactivateAllKeepsKeys(inv, ids[..|ids| - 1], now);
    }
  }

  lemma DisappearanceKeepsKeys(inv: Inventory, run: nat, now: Time)
    requires ForeignKeys(inv)
    ensures ForeignKeys(Disappearance.ProcessSourceRun(inv, run, now))
  {
    hide ForeignKeys, Disappearance.Sweep, Disappearance.InactivateAll, Disappearance.Trips, Disappearance.BreakerIssue;
    if Disappearance.GateOpen(inv.runs, run) {
      SweepKeepsKeys(inv, run, now, |inv.links|);
      var swept := Disappearance.Sweep(inv, run, now, |inv.links|);
      InactivateAllKeepsKeys(swept, Disappearance.EligibleUpTo(swept, |swept.listings|), now);
      FactsKeepKeys(swept, Disappearance.InactivateUnsupported(swept, now).facts);
    }
  }

  // ---------------------------------------------------------------- steps

  datatype Step =
    | OpenRun(source: nat, startedAt: Time)
    | CloseRun(run: nat, status: SourceRunStatus, via: DiscoveryMethod)
    | Observe(row: Observation)
    | NormalizeStep(observation: nat, via: DiscoveryMethod, now: Time)
    | MergeStep(source: nat, target: nat, actor: Actor, now: Time)
    | ReverseStep(merge: nat, actor: Actor, now: Time)
    | VerdictStep(candidate: nat, verdict: Verdict, actor: Actor, now: Time)
    | AdmitStep(rows: seq<nat>, limit: nat, now: Time)
    | DisappearStep(run: nat, now: Time)
    | GeocodeStep(address: nat, precision: Precision)
    | BoundaryStep(address: nat, inScope: bool)
    | OverrideStep(override: Override)
    | EndOverrideStep(ended: nat, overrideStatus: OverrideStatus)
    | TriageStep(issue: nat, issueStatus: IssueStatus)

  /** Coordinates are only ever given to an address that has none. */
  function Geocoded(p: Places, a: nat, precision: Precision): Places {
    if a < |p.addresses| && !p.addresses[a].located
    then p.(addresses := p.addresses[a := p.addresses[a].(located := true, precision := precision)]) else p
  }

  /** The boundary verdict is only ever given to a located, still unresolved address. */
  function Bounded(p: Places, a: nat, inScope: bool): Places {
    if a < |p.addresses| && p.addresses[a].located && p.addresses[a].boundary == Boundary.Unresolved
    then p.(addresses := p.addresses[a := p.addresses[a].(
      boundary := if inScope then Boundary.InScope else Boundary.OutOfScope)])
    else p
  }

  /** An operator's override row; a second active one for the same field violates the unique index. */
  function AddOverride(f: Facts, override: Override): Facts {
    if override.status == OverrideStatus.Active && Overridden(f.overrides, override.entity, override.field) then f
    else f.(overrides := f.overrides + [override])
  }

  function EndOverride(f: Facts, o: nat, status: OverrideStatus): Facts {
    if o < |f.overrides| && status != OverrideStatus.Active
    then f.(overrides := f.overrides[o := f.overrides[o].(status := status)]) else f
  }

  /** An operator closes an issue; closed issues are not reopened. */
  function Triage(f: Facts, i: nat, status: IssueStatus): Facts {
    if i < |f.issues| && status != IssueStatus.Open
    then f.(issues := f.issues[i := f.issues[i].(status := status)]) else f
  }

  function CloseSourceRun(
      runs: seq<SourceRun>, run: nat, status: SourceRunStatus, via: DiscoveryMethod): seq<SourceRun> {
    if run < |runs|
    then runs[run := runs[run].(status := status, gatePassed := Some(GatePasses(status, via)))]
    else runs
  }

  ghost function Apply(inv: Inventory, step: Step): (r: Inventory)
    requires ForeignKeys(inv)
  {
    match step
    case OpenRun(source, startedAt) =>
      inv.(runs := inv.runs + [SourceRun(source, startedAt, SourceRunStatus.Pending, None)])
    case CloseRun(run, status, via) => inv.(runs := CloseSourceRun(inv.runs, run, status, via))
    case Observe(row) => if row.run < |inv.runs| then inv.(observations := inv.observations + [row]) else inv
    case NormalizeStep(o, via, now) => Normalized(inv, o, via, now)
    case MergeStep(source, target, actor, now) =>
      var merged := MergeListings(inv, source, target, actor, now);
      if merged.Success? then merged.value else inv
    case ReverseStep(m, actor, now) =>
      var reversed := ReverseMerge(inv, m, actor, now);
      if reversed.Success? then reversed.value else inv
    case VerdictStep(c, verdict, actor, now) =>
      var resolved := ResolveDuplicateCandidate(inv, c, verdict, actor, now);
      if resolved.Success? then resolved.value else inv
    case AdmitStep(rows, limit, now) =>
      if Admission.IsSelection(inv.listings, rows, limit) then Admission.EvaluateRows(inv, rows, now) else inv
    case DisappearStep(run, now) => Disappearance.ProcessSourceRun(inv, run, now)
    case GeocodeStep(a, precision) => inv.(places := Geocoded(inv.places, a, precision))
    case BoundaryStep(a, inScope) => inv.(places := Bounded(inv.places, a, inScope))
    case OverrideStep(override) => inv.(facts := AddOverride(inv.facts, override))
    case EndOverrideStep(o, status) => inv.(facts := EndOverride(inv.facts, o, status))
    case TriageStep(i, status) => inv.(facts := Triage(inv.facts, i, status))
  }

  lemma AddRowsKeepsKeys(inv: Inventory, step: Step)
    requires ForeignKeys(inv) && (step.OpenRun? || step.CloseRun? || step.Observe?)
    ensures ForeignKeys(Apply(inv, step))
  {
  }

  lemma RelocateKeepsKeys(inv: Inventory, step: Step)
    requires ForeignKeys(inv) && (step.GeocodeStep? || step.BoundaryStep?)
    ensures ForeignKeys(Apply(inv, step))
  {
  }

  lemma ApplyKeepsKeys(inv: Inventory, step: Step)
    requires ForeignKeys(inv)
    ensures ForeignKeys(Apply(inv, step))
  {
    hide ForeignKeys, Normalized, DoMerge, DoReverse, ResolveDuplicateCandidate, Disappearance.ProcessSourceRun,
      Admission.EvaluateRows, Admission.IsSelection;
    match step
    case OpenRun(_, _) => AddRowsKeepsKeys(inv, step);
    case CloseRun(_, _, _) => AddRowsKeepsKeys(inv, step);
    case Observe(_) => AddRowsKeepsKeys(inv, step);
    case NormalizeStep(o, via, now) => NormalizedKeepsKeys(inv, o, via, now);
    case MergeStep(source, target, actor, now) =>
      if CheckMerge(inv.listings, source, target, actor).None? { MergeKeepsKeys(inv, source, target, now); }
    case ReverseStep(m, actor, now) =>
      if CheckReverse(inv.merges, m, actor).None? { ReverseKeepsKeys(inv, m, now); }
    case VerdictStep(c, verdict, actor, now) =>
      if ResolveDuplicateCandidate(inv, c, verdict, actor, now).Success? {
        VerdictKeepsKeys(inv, c, verdict, actor, now);
      }
    case AdmitStep(_, _, _) =>
    case DisappearStep(run, now) => DisappearanceKeepsKeys(inv, run, now);
    case GeocodeStep(_, _) => RelocateKeepsKeys(inv, step);
    case BoundaryStep(_, _) => RelocateKeepsKeys(inv, step);
    case OverrideStep(override) => FactsKeepKeys(inv, AddOverride(inv.facts, override));
    case EndOverrideStep(o, status) => FactsKeepKeys(inv, EndOverride(inv.facts, o, status));
    case TriageStep(i, status) => FactsKeepKeys(inv, Triage(inv.facts, i, status));
  }

  lemma NormalizeApplies(inv: Inventory, step: Step)
    requires ForeignKeys(inv) && step.NormalizeStep?
    ensures Apply(inv, step) == Normalized(inv, step.observation, step.via, step.now)
  {
    hide Normalized;
  }

  /** Runs of any length, in any order, from any consistent state. */
  ghost function Run(inv: Inventory, steps: seq<Step>): (r: Inventory)
    requires ForeignKeys(inv)
    ensures ForeignKeys(r)
    decreases |steps|
  {
    if steps == [] then
      inv
    else
      ApplyKeepsKeys(inv, steps[0]);
      Run(Apply(inv, steps[0]), steps[1..])
  }

  lemma {:induction false} RunSnoc(inv: Inventory, steps: seq<Step>, step: Step)
    requires ForeignKeys(inv)
    ensures Run(inv, steps + [step]) == Apply(Run(inv, steps), step)
    decreases |steps|
  {
    hide ForeignKeys, Apply;
    if steps == [] {
      ApplyKeepsKeys(inv, step);
      assert ([] + [step])[1..] == [];
    } else {
      ApplyKeepsKeys(inv, steps[0]);
      assert (steps + [step])[1..] == steps[1..] + [step];
      RunSnoc(Apply(inv, steps[0]), steps[1..], step);
    }
  }

  lemma {:induction false} RunConcat(inv: Inventory, first: seq<Step>, second: seq<Step>)
    requires ForeignKeys(inv)
    ensures Run(inv, first + second) == Run(Run(inv, first), second)
    decreases |first|
  {
    hide ForeignKeys, Apply;
    if first == [] {
      assert first + second == second;
    } else {
      ApplyKeepsKeys(inv, first[0]);
      assert (first + second)[1..] == first[1..] + second;
      RunConcat(Apply(inv, first[0]), first[1..], second);
    }
  }

  ghost predicate NoReversals(steps: seq<Step>) {
    forall s :: 0 <= s < |steps| ==> !steps[s].ReverseStep?
  }
}
