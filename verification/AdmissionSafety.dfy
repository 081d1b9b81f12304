/** What admission guarantees in every reachable state, what its counters count, and when a second pass is idle. */
module AdmissionSafety {
  import opened Prelude
  import opened Schema
  import opened Normalization
  import opened MergeService
  import opened Engine
  import opened Shapes
  import opened Admission
  import Disappearance

  // ---------------------------------------------------------------- the invariant

  /** Only located addresses ever get a boundary verdict. */
  predicate VerdictsAreLocated(p: Places) {
    forall a :: 0 <= a < |p.addresses| && p.addresses[a].boundary != Boundary.Unresolved ==> p.addresses[a].located
  }

  predicate Admissible(listing: Listing, address: Address) {
    && AdmissibleLayout(listing.layout)
    && address.boundary == Boundary.InScope
    && AcceptablePrecision(address.precision)
  }

  predicate ActiveIsAdmissible(inv: Inventory)
    requires ForeignKeys(inv)
  {
    forall i :: 0 <= i < |inv.listings| && inv.listings[i].lifecycle == Lifecycle.Active ==>
      Admissible(inv.listings[i], AddressOf(inv, i))
  }

  predicate AdmissionSound(inv: Inventory)
    requires ForeignKeys(inv)
  {
    VerdictsAreLocated(inv.places) && ActiveIsAdmissible(inv)
  }

  // ---------------------------------------------------------------- steps other than admission

  /** Places may grow; a listing keeps its building and layout; nothing becomes ACTIVE. */
  predicate AdmitsNothing(inv: Inventory, r: Inventory) {
    && PlacesGrow(inv.places, r.places)
    && |inv.listings| <= |r.listings|
    && (forall i :: 0 <= i < |inv.listings| ==>
          && r.listings[i].building == inv.listings[i].building && r.listings[i].layout == inv.listings[i].layout
          && (r.listings[i].lifecycle == Lifecycle.Active ==> inv.listings[i].lifecycle == Lifecycle.Active))
    && (forall i :: |inv.listings| <= i < |r.listings| ==> r.listings[i].lifecycle != Lifecycle.Active)
  }

  lemma AdmitsNothingKeeps(inv: Inventory, r: Inventory)
    requires ForeignKeys(inv) && ForeignKeys(r) && ActiveIsAdmissible(inv) && AdmitsNothing(inv, r)
    ensures ActiveIsAdmissible(r)
  {
    forall i | 0 <= i < |r.listings| && r.listings[i].lifecycle == Lifecycle.Active
      ensures Admissible(r.listings[i], AddressOf(r, i))
    {
      assert ListingRefers(inv.listings[i], inv.places);
      assert AddressOf(r, i) == AddressOf(inv, i);
    }
  }

  lemma NormalizeAdmitsNothing(inv: Inventory, o: nat, via: DiscoveryMethod, now: Time)
    requires ForeignKeys(inv)
    ensures AdmitsNothing(inv, Normalized(inv, o, via, now))
    ensures VerdictsAreLocated(inv.places) ==> VerdictsAreLocated(Normalized(inv, o, via, now).places)
  {
    hide AddListing, UpdateExisting, PlacesRefer, Normalized, CaseOf, MatchingLinks;
    NormalizedByCase(inv, o, via, now);
    match CaseOf(inv, o)
    case Nothing =>
    case Attaching(places, listing, identity) =>
    case Adding(places, building, unit) => AddShape(inv.(places := places), o, building, unit, via, now);
    case Updating(k) => UpdateShape(inv, o, k, now);
  }

  // ---------------------------------------------------------------- admission itself

  /** What EvaluateOne decides from never changes while a batch is evaluated. */
  lemma DecisionIsStable(inv: Inventory, r: Inventory, i: nat)
    requires ForeignKeys(inv) && ForeignKeys(r) && i < |inv.listings| == |r.listings|
    requires r == inv.(listings := r.listings, events := r.events)
    requires r.listings[i] == inv.listings[i].(lifecycle := r.listings[i].lifecycle)
    ensures DecisionFor(r, i) == DecisionFor(inv, i)
  {
  }

  function Outcome(decision: Decision, lifecycle: Lifecycle): Lifecycle {
    match decision
    case Activate => Lifecycle.Active
    case Exclude => Lifecycle.Excluded
    case Hold(_) => lifecycle
  }

  /** A batch gives every chosen listing the outcome of its own decision, as decided before the batch. */
  lemma {:induction false} BatchOutcome(inv: Inventory, rows: seq<nat>, now: Time)
    requires ForeignKeys(inv) && forall a :: 0 <= a < |rows| ==> rows[a] < |inv.listings|
    ensures forall j: nat :: j < |inv.listings| ==>
              EvaluateRows(inv, rows, now).listings[j].lifecycle ==
                if j in rows then Outcome(DecisionFor(inv, j), inv.listings[j].lifecycle) else inv.listings[j].lifecycle
  {
    hide ForeignKeys, DecisionFor, Emit;
    if rows != [] {
      var front := rows[..|rows| - 1];
      var last := rows[|rows| - 1];
      var before := EvaluateRows(inv, front, now);
      BatchOutcome(inv, front, now);
      AdmissionShape(inv, front, now);
      DecisionIsStable(inv, before, last);
      assert rows == front + [last];
    }
  }

  lemma AdmitKeepsSound(inv: Inventory, rows: seq<nat>, now: Time)
    requires ForeignKeys(inv) && AdmissionSound(inv)
    requires forall a :: 0 <= a < |rows| ==> rows[a] < |inv.listings|
    ensures AdmissionSound(EvaluateRows(inv, rows, now))
  {
    hide ForeignKeys;
    var r := EvaluateRows(inv, rows, now);
    AdmissionShape(inv, rows, now);
    BatchOutcome(inv, rows, now);
    forall i | 0 <= i < |r.listings| && r.listings[i].lifecycle == Lifecycle.Active
      ensures Admissible(r.listings[i], AddressOf(r, i))
    {
      assert AddressOf(r, i) == AddressOf(inv, i);
    }
  }

  // ---------------------------------------------------------------- every reachable state

  lemma RelocateKeepsSound(inv: Inventory, step: Step)
    requires ForeignKeys(inv) && AdmissionSound(inv) && (step.GeocodeStep? || step.BoundaryStep?)
    ensures ForeignKeys(Apply(inv, step)) && AdmissionSound(Apply(inv, step))
  {
    RelocateKeepsKeys(inv, step);
    var r := Apply(inv, step);
    forall i | 0 <= i < |r.listings| && r.listings[i].lifecycle == Lifecycle.Active
      ensures Admissible(r.listings[i], AddressOf(r, i))
    {
      assert Admissible(inv.listings[i], AddressOf(inv, i));
      assert AddressOf(r, i) == AddressOf(inv, i);
    }
  }

  lemma OtherStepAdmitsNothing(inv: Inventory, step: Step)
    requires ForeignKeys(inv)
    requires !step.NormalizeStep? && !step.AdmitStep? && !step.GeocodeStep? && !step.BoundaryStep?
    ensures AdmitsNothing(inv, Apply(inv, step)) && Apply(inv, step).places == inv.places
  {
    hide ForeignKeys, Normalized, EvaluateRows, Emit, MovedLinks, Relink, MoveBack, Disappearance.ProcessSourceRun,
      IsSelection, CloseIssues;
    match step {
      case DisappearStep(run, now) => DisappearanceShape(inv, run, now);
      case ReverseStep(m, actor, now) =>
        if CheckReverse(inv.merges, m, actor).None? { ReverseKeepsKeys(inv, m, now); }
      case NormalizeStep(_, _, _) =>
      case AdmitStep(_, _, _) =>
      case GeocodeStep(_, _) =>
      case BoundaryStep(_, _) =>
      case _ =>
    }
  }

  lemma NormalizeKeepsSound(inv: Inventory, step: Step)
    requires ForeignKeys(inv) && ForeignKeys(Apply(inv, step)) && AdmissionSound(inv) && step.NormalizeStep?
    ensures AdmissionSound(Apply(inv, step))
  {
    hide ForeignKeys, ActiveIsAdmissible, VerdictsAreLocated, Normalized, AdmitsNothing;
    NormalizeAdmitsNothing(inv, step.observation, step.via, step.now);
    AdmitsNothingKeeps(inv, Apply(inv, step));
  }

  lemma StepKeepsSound(inv: Inventory, step: Step)
    requires ForeignKeys(inv) && AdmissionSound(inv)
    ensures ForeignKeys(Apply(inv, step)) && AdmissionSound(Apply(inv, step))
  {
    hide ForeignKeys, ActiveIsAdmissible, VerdictsAreLocated, AdmitsNothing, EvaluateRows, IsSelection;
    ApplyKeepsKeys(inv, step);
    if step.NormalizeStep? {
      NormalizeKeepsSound(inv, step);
    } else if step.AdmitStep? {
      AdmitStepKeepsSound(inv, step);
    } else if step.GeocodeStep? || step.BoundaryStep? {
      RelocateKeepsSound(inv, step);
    } else {
      OtherStepAdmitsNothing(inv, step);
      AdmitsNothingKeeps(inv, Apply(inv, step));
    }
  }

  lemma AdmitStepKeepsSound(inv: Inventory, step: Step)
    requires ForeignKeys(inv) && ForeignKeys(Apply(inv, step)) && AdmissionSound(inv) && step.AdmitStep?
    ensures AdmissionSound(Apply(inv, step))
  {
    hide ForeignKeys, AdmissionSound, EvaluateRows;
    if IsSelection(inv.listings, step.rows, step.limit) {
      AdmitKeepsSound(inv, step.rows, step.now);
    }
  }

  /** In every reachable state an ACTIVE listing has an admissible layout, lies in scope, and is placed precisely. */
  lemma {:induction false} RunKeepsSound(inv: Inventory, steps: seq<Step>)
    requires ForeignKeys(inv) && AdmissionSound(inv)
    ensures AdmissionSound(Run(inv, steps))
    decreases |steps|
  {
    hide ForeignKeys, AdmissionSound, Apply;
    if steps != [] {
      StepKeepsSound(inv, steps[0]);
      RunKeepsSound(Apply(inv, steps[0]), steps[1..]);
    }
  }

  // ---------------------------------------------------------------- the counters

  function HeldFor(held: map<Reason, nat>, reason: Reason): nat {
    if reason in held then held[reason] else 0
  }

  function HeldInAll(held: map<Reason, nat>): nat {
    HeldFor(held, LayoutUnresolved) + HeldFor(held, GeographyUnresolved) + HeldFor(held, PrecisionInsufficient)
    + HeldFor(held, IdentityBlocked) + HeldFor(held, NoActiveSourceLink)
  }

  function CountOf(inv: Inventory, lifecycle: Lifecycle): nat {
    CountIf(inv.listings, (l: Listing) => l.lifecycle == lifecycle)
  }

  lemma TallyPartitions(summary: Summary, decision: Decision)
    requires summary.evaluated == summary.activated + summary.excluded + summary.stillCandidate
    requires HeldInAll(summary.held) == summary.stillCandidate
    ensures
      var next := Tally(summary, decision);
      && next.evaluated == summary.evaluated + 1
      && next.evaluated == next.activated + next.excluded + next.stillCandidate
      && HeldInAll(next.held) == next.stillCandidate
  {
    match decision
    case Hold(reason) => BumpCounts(summary.held, reason);
    case Activate =>
    case Exclude =>
  }

  lemma BumpCounts(held: map<Reason, nat>, reason: Reason)
    ensures HeldInAll(Bump(held, reason)) == HeldInAll(held) + 1
  {
    var bumped := Bump(held, reason);
    assert forall other: Reason :: HeldFor(bumped, other) == HeldFor(held, other) + if other == reason then 1 else 0;
    match reason
    case LayoutUnresolved =>
    case GeographyUnresolved =>
    case PrecisionInsufficient =>
    case IdentityBlocked =>
    case NoActiveSourceLink =>
  }

  /** The counters partition the listings evaluated, and count exactly the listings that changed lifecycle. */
  lemma {:induction false} CountersPartition(inv: Inventory, rows: seq<nat>, now: Time)
    requires ForeignKeys(inv) && IsSelection(inv.listings, rows, |rows|)
    ensures
      var summary := TallyRows(inv, rows, now);
      var r := EvaluateRows(inv, rows, now);
      && summary.evaluated == |rows| == summary.activated + summary.excluded + summary.stillCandidate
      && HeldInAll(summary.held) == summary.stillCandidate
      && CountOf(r, Lifecycle.Active) == CountOf(inv, Lifecycle.Active) + summary.activated
      && CountOf(r, Lifecycle.Excluded) == CountOf(inv, Lifecycle.Excluded) + summary.excluded
  {
    hide ForeignKeys, DecisionFor, Tally, HeldInAll, Emit, CountIf;
    if rows == [] {
      assert HeldInAll(map[]) == 0 by { NothingHeld(); }
    } else {
      var front := rows[..|rows| - 1];
      var last := rows[|rows| - 1];
      CountersPartition(inv, front, now);
      var before := EvaluateRows(inv, front, now);
      var summary := TallyRows(inv, front, now);
      assert last !in front;
      AdmissionShape(inv, front, now);
      assert IsPending(before.listings[last]);
      TallyPartitions(summary, DecisionFor(before, last));
      OneCounts(before, summary, last, now);
    }
  }

  lemma NothingHeld()
    ensures HeldInAll(map[]) == 0
  {
  }

  lemma OneCounts(inv: Inventory, summary: Summary, i: nat, now: Time)
    requires ForeignKeys(inv) && i < |inv.listings| && IsPending(inv.listings[i])
    ensures
      var next := Tally(summary, DecisionFor(inv, i));
      && CountOf(EvaluateOne(inv, i, now), Lifecycle.Active)
           == CountOf(inv, Lifecycle.Active) + next.activated - summary.activated
      && CountOf(EvaluateOne(inv, i, now), Lifecycle.Excluded)
           == CountOf(inv, Lifecycle.Excluded) + next.excluded - summary.excluded
  {
    hide DecisionFor, Emit, Bump;
    var r := EvaluateOne(inv, i, now);
    var decision := DecisionFor(inv, i);
    if !decision.Hold? {
      CountIfUpdate(inv.listings, i, r.listings[i], (l: Listing) => l.lifecycle == Lifecycle.Active);
      CountIfUpdate(inv.listings, i, r.listings[i], (l: Listing) => l.lifecycle == Lifecycle.Excluded);
    }
  }

  // ---------------------------------------------------------------- a second pass

  /** Every answer the query may give the second pass leaves the state as it is. */
  ghost predicate Quiet(inv: Inventory, limit: nat, now: Time)
    requires ForeignKeys(inv)
  {
    forall rows: seq<nat> :: IsSelection(inv.listings, rows, limit) ==> EvaluateRows(inv, rows, now) == inv
  }

  /** Every listing still waiting would be held. */
  predicate AllHeld(inv: Inventory)
    requires ForeignKeys(inv)
  {
    forall i: nat :: i < |inv.listings| && IsPending(inv.listings[i]) ==> DecisionFor(inv, i).Hold?
  }

  lemma {:induction false} HeldBatchIsIdle(inv: Inventory, rows: seq<nat>, now: Time)
    requires ForeignKeys(inv)
    requires forall a :: 0 <= a < |rows| ==> rows[a] < |inv.listings| && DecisionFor(inv, rows[a]).Hold?
    ensures EvaluateRows(inv, rows, now) == inv
  {
    if rows != [] {
      HeldBatchIsIdle(inv, rows[..|rows| - 1], now);
    }
  }

  /** A query limited to at least one row may answer with any waiting listing. */
  lemma SelectionWith(listings: seq<Listing>, i: nat, limit: nat) returns (rows: seq<nat>)
    requires i < |listings| && IsPending(listings[i]) && limit > 0
    ensures IsSelection(listings, rows, limit) && i in rows
  {
    hide IsPending, IsSelection;
    var others := Where(listings, (l: Listing) => IsPending(l));
    var at: nat :| at < |others| && others[at] == i;
    MovedToFront(others, at);
    rows := [i] + others[..at] + others[at + 1..];
    FrontIsSelection(listings, rows, limit);
    rows := rows[..Min(limit, |rows|)];
    assert rows[0] == i;
  }

  lemma FrontIsSelection(listings: seq<Listing>, rows: seq<nat>, limit: nat)
    requires forall a, b :: 0 <= a < b < |rows| ==> rows[a] != rows[b]
    requires forall a :: 0 <= a < |rows| ==> rows[a] < |listings| && IsPending(listings[rows[a]])
    requires forall i: nat :: i < |listings| && IsPending(listings[i]) ==> i in rows
    ensures IsSelection(listings, rows[..Min(limit, |rows|)], limit)
  {
    hide IsPending;
    if |rows| <= limit {
      assert rows[..Min(limit, |rows|)] == rows;
    }
  }

  lemma MovedToFront(ids: seq<nat>, at: nat)
    requires at < |ids| && forall a, b :: 0 <= a < b < |ids| ==> ids[a] < ids[b]
    ensures
      var moved := [ids[at]] + ids[..at] + ids[at + 1..];
      && (forall a, b :: 0 <= a < b < |moved| ==> moved[a] != moved[b])
      && (forall a :: 0 <= a < |moved| ==> moved[a] in ids)
      && (forall j :: j in ids ==> j in moved)
  {
    var moved := [ids[at]] + ids[..at] + ids[at + 1..];
    forall a, b | 0 <= a < b < |moved| ensures moved[a] != moved[b] {
      assert moved[b] == if b <= at then ids[b - 1] else ids[b];
      assert a > 0 ==> moved[a] == if a <= at then ids[a - 1] else ids[a];
    }
    forall j | j in ids ensures j in moved {
      var b: nat :| b < |ids| && ids[b] == j;
      assert b < at ==> moved[b + 1] == j;
      assert b > at ==> moved[b] == j;
      assert b == at ==> moved[0] == j;
    }
  }

  lemma QuietIff(inv: Inventory, limit: nat, now: Time)
    requires ForeignKeys(inv)
    ensures Quiet(inv, limit, now) <==> limit == 0 || AllHeld(inv)
  {
    hide DecisionFor, ForeignKeys;
    if limit == 0 {
      forall rows: seq<nat> | IsSelection(inv.listings, rows, limit) ensures EvaluateRows(inv, rows, now) == inv {
        assert rows == [];
      }
    } else if AllHeld(inv) {
      forall rows: seq<nat> | IsSelection(inv.listings, rows, limit) ensures EvaluateRows(inv, rows, now) == inv {
        HeldBatchIsIdle(inv, rows, now);
      }
    } else {
      var i: nat :| i < |inv.listings| && IsPending(inv.listings[i]) && !DecisionFor(inv, i).Hold?;
      var rows := SelectionWith(inv.listings, i, limit);
      BatchOutcome(inv, rows, now);
      assert EvaluateRows(inv, rows, now).listings[i].lifecycle != inv.listings[i].lifecycle;
    }
  }

  /**
   * An immediate second pass is idle exactly when the first one overlooked nothing it would have decided; in particular
   * whenever the limit did not cut in.
   */
  lemma SecondPassIdleIff(inv: Inventory, rows: seq<nat>, limit: nat, now: Time, later: Time)
    requires ForeignKeys(inv) && IsSelection(inv.listings, rows, limit)
    ensures Quiet(EvaluateRows(inv, rows, now), limit, later) <==>
      || limit == 0
      || (forall i: nat :: i < |inv.listings| && IsPending(inv.listings[i]) && i !in rows ==> DecisionFor(inv, i).Hold?)
    ensures |rows| < limit ==> Quiet(EvaluateRows(inv, rows, now), limit, later)
  {
    hide DecisionFor, ForeignKeys;
    var r := EvaluateRows(inv, rows, now);
    QuietIff(r, limit, later);
    BatchOutcome(inv, rows, now);
    AdmissionShape(inv, rows, now);
    forall i: nat | i < |inv.listings|
      ensures DecisionFor(r, i) == DecisionFor(inv, i)
      ensures i in rows && IsPending(r.listings[i]) ==> DecisionFor(inv, i).Hold?
      ensures i !in rows ==> IsPending(r.listings[i]) == IsPending(inv.listings[i])
    {
      DecisionIsStable(inv, r, i);
    }
  }
}
