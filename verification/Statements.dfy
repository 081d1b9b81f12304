/** Where a field comes from: the last statement that was processed, which is the newest one when they come in order. */
module Statements {
  import opened Prelude
  import opened Schema
  import opened FactHistory
  import opened Normalization
  import opened MergeService
  import opened Engine
  import opened Shapes
  import opened EventLog
  import opened EventLogRuns
  import Disappearance
  import Admission

  datatype Statement = Statement(at: Time, value: FactValue)

  /** The statement about a field that a step takes over: unblocked, of changed content, or the listing's first. */
  ghost function Heard(inv: Inventory, step: Step, i: nat, key: FieldKey): Option<Statement>
    requires ForeignKeys(inv)
  {
    if !step.NormalizeStep? then
      None
    else
      CaseIsSound(inv, step.observation);
      match CaseOf(inv, step.observation)
      case Adding(_, _, _) =>
        var row := inv.observations[step.observation];
        if i == |inv.listings| then Some(Statement(row.observedAt, InitialValue(row.parsed, key))) else None
      case Updating(k) =>
        UpdateReads(inv, k);
        var row := inv.observations[step.observation];
        if inv.links[k].listing == i && Applies(inv, step.observation, k) && Proposed(row.parsed, key).Some?
          && !Overridden(inv.facts.overrides, i, FactField(key))
        then Some(Statement(row.observedAt, Proposed(row.parsed, key).value))
        else None
      case _ => None
  }

  /** All of them over a run, in the order they were processed. */
  ghost function History(inv: Inventory, steps: seq<Step>, i: nat, key: FieldKey): seq<Statement>
    requires ForeignKeys(inv)
    decreases |steps|
  {
    if steps == [] then
      []
    else
      ApplyKeepsKeys(inv, steps[0]);
      var heard := Heard(inv, steps[0], i, key);
      (if heard.Some? then [heard.value] else []) + History(Apply(inv, steps[0]), steps[1..], i, key)
  }

  // ---------------------------------------------------------------- one step

  lemma ApplyFieldSets(inv: Inventory, i: nat, o: nat, key: FieldKey, other: FieldKey)
    requires i < |inv.listings| && o < |inv.observations|
    ensures FieldOf(ApplyField(inv, i, o, key).listings[i], other) ==
      if other == key && Proposed(inv.observations[o].parsed, key).Some?
        && !Overridden(inv.facts.overrides, i, FactField(key))
      then Proposed(inv.observations[o].parsed, key).value else FieldOf(inv.listings[i], other)
  {
    hide Overridden, RaiseConflict, Proposed, Emit;
    if Proposed(inv.observations[o].parsed, key).Some? {
      AssignSetsOneField(inv.listings[i], inv.observations[o].parsed, key, other);
    }
  }

  lemma ApplyFieldsSets(inv: Inventory, i: nat, o: nat, key: FieldKey)
    requires i < |inv.listings| && o < |inv.observations|
    ensures FieldOf(ApplyFields(inv, i, o).listings[i], key) ==
      if Proposed(inv.observations[o].parsed, key).Some? && !Overridden(inv.facts.overrides, i, FactField(key))
      then Proposed(inv.observations[o].parsed, key).value else FieldOf(inv.listings[i], key)
  {
    hide ApplyField, Overridden, Proposed, FieldOf;
    var rent := ApplyField(inv, i, o, RentKey);
    ApplyFieldShape(inv, i, o, RentKey);
    ApplyFieldSets(inv, i, o, RentKey, key);
    var availability := ApplyField(rent, i, o, AvailabilityKey);
    ApplyFieldShape(rent, i, o, AvailabilityKey);
    ApplyFieldSets(rent, i, o, AvailabilityKey, key);
    ApplyFieldSets(availability, i, o, LaundryKey, key);
  }

  lemma UpdateSets(inv: Inventory, o: nat, k: nat, now: Time, key: FieldKey)
    requires ForeignKeys(inv) && o < |inv.observations| && k < |inv.links|
    ensures inv.links[k].listing < |inv.listings| && inv.links[k].latestObservation < |inv.observations|
    ensures
      var i := inv.links[k].listing;
      var row := inv.observations[o];
      |UpdateExisting(inv, o, k, now).after.listings| == |inv.listings| &&
      FieldOf(UpdateExisting(inv, o, k, now).after.listings[i], key) ==
        if Applies(inv, o, k) && Proposed(row.parsed, key).Some? && !Overridden(inv.facts.overrides, i, FactField(key))
        then Proposed(row.parsed, key).value else FieldOf(inv.listings[i], key)
  {
    hide ApplyFields, RecordListingFacts, KindsSince, TouchLink, Overridden, Proposed;
    UpdateReads(inv, k);
    if Applies(inv, o, k) {
      var i := inv.links[k].listing;
      var row := inv.observations[o];
      var touched := Touch(inv, k, o);
      RecordShape(touched.facts, i, row, o, now);
      ApplyFieldsSets(touched.(facts := RecordListingFacts(touched.facts, i, row, o, now)), i, o, key);
    }
  }

  /** One step leaves the field with what was heard, or as it was; a listing starts with something heard. */
  lemma StepSets(inv: Inventory, step: Step, i: nat, key: FieldKey)
    requires ForeignKeys(inv) && i < |Apply(inv, step).listings|
    ensures
      var heard := Heard(inv, step, i, key);
      if heard.Some? then FieldOf(Apply(inv, step).listings[i], key) == heard.value.value
      else i < |inv.listings| && FieldOf(Apply(inv, step).listings[i], key) == FieldOf(inv.listings[i], key)
  {
    hide ForeignKeys, Apply, Normalized, AddListing, UpdateExisting, PlacesGrow, PlacesRefer, CaseOf, MatchingLinks,
      Applies, Overridden, QuietLog, Proposed, LinksAge;
    if step.NormalizeStep? {
      var o := step.observation;
      NormalizeApplies(inv, step);
      NormalizedByCase(inv, o, step.via, step.now);
      match CaseOf(inv, o)
      case Nothing =>
      case Attaching(places, listing, identity) =>
      case Adding(places, building, unit) => AddShape(inv.(places := places), o, building, unit, step.via, step.now);
      case Updating(k) =>
        UpdateShape(inv, o, k, step.now);
        UpdateSets(inv, o, k, step.now, key);
    } else {
      OtherStepIsQuiet(inv, step);
    }
  }

  // ---------------------------------------------------------------- whole runs

  /** In every run a field holds the last statement processed about it, however old; before any, what it held. */
  lemma {:induction false} FieldIsLastHeard(inv: Inventory, steps: seq<Step>, i: nat, key: FieldKey)
    requires ForeignKeys(inv) && i < |Run(inv, steps).listings|
    ensures
      var history := History(inv, steps, i, key);
      if history != [] then FieldOf(Run(inv, steps).listings[i], key) == history[|history| - 1].value
      else i < |inv.listings| && FieldOf(Run(inv, steps).listings[i], key) == FieldOf(inv.listings[i], key)
    decreases |steps|
  {
    hide ForeignKeys, Apply, Heard, FieldOf;
    if steps != [] {
      ApplyKeepsKeys(inv, steps[0]);
      var next := Apply(inv, steps[0]);
      FieldIsLastHeard(next, steps[1..], i, key);
      if History(next, steps[1..], i, key) == [] {
        StepSets(inv, steps[0], i, key);
      }
    }
  }

  // ---------------------------------------------------------------- in order

  /** What is taken over for the listing is not older than what it was last seen by. */
  ghost predicate NotStale(inv: Inventory, step: Step, i: nat, key: FieldKey)
    requires ForeignKeys(inv)
  {
    Heard(inv, step, i, key).Some? && i < |inv.listings| ==>
      inv.listings[i].lastSeenAt <= Heard(inv, step, i, key).value.at
  }

  ghost predicate NeverStale(inv: Inventory, steps: seq<Step>, i: nat, key: FieldKey)
    requires ForeignKeys(inv)
    decreases |steps|
  {
    steps == []
    || (ApplyKeepsKeys(inv, steps[0]);
        NotStale(inv, steps[0], i, key) && NeverStale(Apply(inv, steps[0]), steps[1..], i, key))
  }

  predicate StampsGrow(before: seq<Listing>, after: seq<Listing>) {
    |before| <= |after| && forall i :: 0 <= i < |before| ==> before[i].lastSeenAt <= after[i].lastSeenAt
  }

  /** A listing's last_seen_at never goes back, and covers what was just heard. */
  lemma StampGrows(inv: Inventory, step: Step, i: nat, key: FieldKey)
    requires ForeignKeys(inv)
    ensures StampsGrow(inv.listings, Apply(inv, step).listings)
    ensures Heard(inv, step, i, key).Some? ==>
              i < |Apply(inv, step).listings|
              && Heard(inv, step, i, key).value.at <= Apply(inv, step).listings[i].lastSeenAt
  {
    hide ForeignKeys, Apply, Normalized, AddListing, UpdateExisting, PlacesGrow, PlacesRefer, CaseOf, MatchingLinks,
      Overridden, Proposed;
    if step.NormalizeStep? {
      var o := step.observation;
      NormalizeApplies(inv, step);
      NormalizedByCase(inv, o, step.via, step.now);
      match CaseOf(inv, o)
      case Nothing =>
      case Attaching(places, listing, identity) =>
      case Adding(places, building, unit) => AddShape(inv.(places := places), o, building, unit, step.via, step.now);
      case Updating(k) => UpdateShape(inv, o, k, step.now);
    } else {
      OtherStampsGrow(inv, step);
    }
  }

  lemma OtherStampsGrow(inv: Inventory, step: Step)
    requires ForeignKeys(inv) && !step.NormalizeStep?
    ensures StampsGrow(inv.listings, Apply(inv, step).listings)
  {
    hide ForeignKeys, Disappearance.ProcessSourceRun, Admission.EvaluateRows, Emit, MovedLinks, Relink, MoveBack;
    match step {
      case DisappearStep(run, now) => DisappearanceShape(inv, run, now);
      case ReverseStep(m, actor, now) =>
        if CheckReverse(inv.merges, m, actor).None? { ReverseKeepsKeys(inv, m, now); }
      case AdmitStep(rows, limit, now) =>
        if Admission.IsSelection(inv.listings, rows, limit) { AdmissionShape(inv, rows, now); }
      case NormalizeStep(_, _, _) =>
      case _ =>
    }
  }

  predicate Rising(history: seq<Statement>) {
    forall a, b :: 0 <= a <= b < |history| ==> history[a].at <= history[b].at
  }

  predicate NoneBefore(history: seq<Statement>, at: Time) {
    forall a :: 0 <= a < |history| ==> at <= history[a].at
  }

  lemma {:induction false} HistoryRises(inv: Inventory, steps: seq<Step>, i: nat, key: FieldKey)
    requires ForeignKeys(inv) && NeverStale(inv, steps, i, key)
    ensures i < |inv.listings| ==> NoneBefore(History(inv, steps, i, key), inv.listings[i].lastSeenAt)
    ensures Rising(History(inv, steps, i, key))
    decreases |steps|
  {
    hide ForeignKeys, Apply, Heard;
    if steps != [] {
      ApplyKeepsKeys(inv, steps[0]);
      var next := Apply(inv, steps[0]);
      HistoryRises(next, steps[1..], i, key);
      StampGrows(inv, steps[0], i, key);
      var heard, rest := Heard(inv, steps[0], i, key), History(next, steps[1..], i, key);
      assert History(inv, steps, i, key) == (if heard.Some? then [heard.value] else []) + rest;
      assert i < |inv.listings| ==> inv.listings[i].lastSeenAt <= next.listings[i].lastSeenAt;
    }
  }

  /** With observations in order a field equals the newest statement about it that no override blocked. */
  lemma NewestStatementWins(inv: Inventory, steps: seq<Step>, i: nat, key: FieldKey)
    requires ForeignKeys(inv) && i < |Run(inv, steps).listings| && NeverStale(inv, steps, i, key)
    requires History(inv, steps, i, key) != []
    ensures
      var history := History(inv, steps, i, key);
      var last := history[|history| - 1];
      && FieldOf(Run(inv, steps).listings[i], key) == last.value
      && (forall a :: 0 <= a < |history| ==> history[a].at <= last.at)
  {
    FieldIsLastHeard(inv, steps, i, key);
    HistoryRises(inv, steps, i, key);
  }
}
