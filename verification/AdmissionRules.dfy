/** Who is admitted, excluded and held, read off the columns; and what an admission pass writes. */
module AdmissionRules {
  import opened Prelude
  import opened Schema
  import opened Engine
  import opened Shapes
  import opened Admission
  import opened AdmissionSafety

  /** The address behind a listing. */
  function PlaceOf(inv: Inventory, i: nat): Address
    requires ForeignKeys(inv) && i < |inv.listings|
  {
    inv.places.addresses[inv.places.buildings[inv.listings[i].building].address]
  }

  /** Known to be out: by its layout, or by where it lies. */
  predicate IsOut(inv: Inventory, i: nat)
    requires ForeignKeys(inv) && i < |inv.listings|
  {
    inv.listings[i].layout == LayoutClass.OutOfScope || PlaceOf(inv, i).boundary == Boundary.OutOfScope
  }

  /**
   * Everything is in place: a studio, one or two bedrooms, in scope, placed to the building or better, its identity not
   * in question, and some link ACTIVE.
   */
  predicate IsIn(inv: Inventory, i: nat)
    requires ForeignKeys(inv) && i < |inv.listings|
  {
    && inv.listings[i].layout in {LayoutClass.Studio, LayoutClass.OneBedroom, LayoutClass.TwoBedroom}
    && PlaceOf(inv, i).boundary == Boundary.InScope
    && PlaceOf(inv, i).precision in {Precision.RooftopOrEntrance, Precision.Building, Precision.Parcel,
                                     Precision.InterpolatedAddress}
    && inv.listings[i].resolution !in {CanonicalResolution.Conflicting, CanonicalResolution.ReviewRequired}
    && (exists k :: 0 <= k < |inv.links| && inv.links[k].listing == i && inv.links[k].status == LinkStatus.Active)
  }

  /** The first thing missing, in the order layout, geography, precision, identity, link. */
  function FirstMissing(inv: Inventory, i: nat): Reason
    requires ForeignKeys(inv) && i < |inv.listings|
  {
    if inv.listings[i].layout in {LayoutClass.Unknown, LayoutClass.Conflicting} then LayoutUnresolved
    else if PlaceOf(inv, i).boundary == Boundary.Unresolved then GeographyUnresolved
    else if PlaceOf(inv, i).precision in {Precision.Street, Precision.PostalCode, Precision.Neighborhood,
                                          Precision.City, Precision.Unknown} then PrecisionInsufficient
    else if inv.listings[i].resolution in {CanonicalResolution.Conflicting, CanonicalResolution.ReviewRequired}
    then IdentityBlocked
    else NoActiveSourceLink
  }

  /** Out when known to be out, in when everything is in place, held for the first thing missing otherwise. */
  lemma DecisionColumns(inv: Inventory, i: nat)
    requires ForeignKeys(inv) && i < |inv.listings|
    ensures DecisionFor(inv, i) ==
      if IsOut(inv, i) then Exclude else if IsIn(inv, i) then Activate else Hold(FirstMissing(inv, i))
  {
    hide ForeignKeys;
  }

  /**
   * A pass over chosen listings: each CANDIDATE or REAPPEARED one that is out becomes EXCLUDED, that is in becomes
   * ACTIVE, and any other stays; nobody else changes.
   */
  lemma PassColumns(inv: Inventory, rows: seq<nat>, limit: nat, now: Time, i: nat)
    requires ForeignKeys(inv) && IsSelection(inv.listings, rows, limit) && i < |inv.listings|
    ensures |Apply(inv, AdmitStep(rows, limit, now)).listings| == |inv.listings|
    ensures
      var after := Apply(inv, AdmitStep(rows, limit, now)).listings[i];
      after == if i !in rows then inv.listings[i]
               else if IsOut(inv, i) then inv.listings[i].(lifecycle := Lifecycle.Excluded)
               else if IsIn(inv, i) then inv.listings[i].(lifecycle := Lifecycle.Active)
               else inv.listings[i]
    ensures i in rows ==> inv.listings[i].lifecycle in {Lifecycle.Candidate, Lifecycle.Reappeared}
    ensures |rows| < limit && inv.listings[i].lifecycle in {Lifecycle.Candidate, Lifecycle.Reappeared} ==> i in rows
  {
    hide ForeignKeys, DecisionFor, IsOut, IsIn, EvaluateRows;
    BatchOutcome(inv, rows, now);
    AdmissionShape(inv, rows, now);
    DecisionColumns(inv, i);
  }

  // ---------------------------------------------------------------- the report and the events

  predicate IsHeldFor(inv: Inventory, i: nat, reason: Reason)
    requires ForeignKeys(inv) && i < |inv.listings|
  {
    !IsOut(inv, i) && !IsIn(inv, i) && FirstMissing(inv, i) == reason
  }

  function Times(held: map<Reason, nat>, reason: Reason): nat {
    if reason in held then held[reason] else 0
  }

  predicate Rows(inv: Inventory, rows: seq<nat>) {
    forall a :: 0 <= a < |rows| ==> rows[a] < |inv.listings|
  }

  /** The positions of the chosen listings that are out, that are in, and that are held for a reason. */
  function OutAmong(inv: Inventory, rows: seq<nat>): set<nat>
    requires ForeignKeys(inv) && Rows(inv, rows)
  {
    set a: nat | a < |rows| && IsOut(inv, rows[a])
  }

  lemma OutAmongGrows(inv: Inventory, rows: seq<nat>)
    requires ForeignKeys(inv) && Rows(inv, rows) && rows != []
    ensures Rows(inv, rows[..|rows| - 1])
    ensures |OutAmong(inv, rows)| == |OutAmong(inv, rows[..|rows| - 1])|
              + if IsOut(inv, rows[|rows| - 1]) then 1 else 0
  {
    hide ForeignKeys, IsOut, IsIn, FirstMissing;
    var n := |rows| - 1;
    assert OutAmong(inv, rows) == OutAmong(inv, rows[..n]) + if IsOut(inv, rows[n]) then {n} else {};
  }

  function InAmong(inv: Inventory, rows: seq<nat>): set<nat>
    requires ForeignKeys(inv) && Rows(inv, rows)
  {
    set a: nat | a < |rows| && !IsOut(inv, rows[a]) && IsIn(inv, rows[a])
  }

  lemma InAmongGrows(inv: Inventory, rows: seq<nat>)
    requires ForeignKeys(inv) && Rows(inv, rows) && rows != []
    ensures Rows(inv, rows[..|rows| - 1])
    ensures |InAmong(inv, rows)| == |InAmong(inv, rows[..|rows| - 1])|
              + if !IsOut(inv, rows[|rows| - 1]) && IsIn(inv, rows[|rows| - 1]) then 1 else 0
  {
    hide ForeignKeys, IsOut, IsIn, FirstMissing;
    var n := |rows| - 1;
    assert InAmong(inv, rows) == InAmong(inv, rows[..n])
      + if !IsOut(inv, rows[n]) && IsIn(inv, rows[n]) then {n} else {};
  }

  function HeldAmong(inv: Inventory, rows: seq<nat>, reason: Reason): set<nat>
    requires ForeignKeys(inv) && Rows(inv, rows)
  {
    set a: nat | a < |rows| && IsHeldFor(inv, rows[a], reason)
  }

  lemma HeldAmongGrows(inv: Inventory, rows: seq<nat>, reason: Reason)
    requires ForeignKeys(inv) && Rows(inv, rows) && rows != []
    ensures Rows(inv, rows[..|rows| - 1])
    ensures |HeldAmong(inv, rows, reason)| == |HeldAmong(inv, rows[..|rows| - 1], reason)|
              + if IsHeldFor(inv, rows[|rows| - 1], reason) then 1 else 0
  {
    hide ForeignKeys, IsHeldFor, HeldAmong;
    var n := |rows| - 1;
    var front := rows[..n];
    forall a: nat | a < n ensures a in HeldAmong(inv, rows, reason) <==> a in HeldAmong(inv, front, reason) {
      HeldAt(inv, rows, reason, a);
      HeldAt(inv, front, reason, a);
    }
    HeldAt(inv, rows, reason, n);
    forall a: nat | a > n ensures a !in HeldAmong(inv, rows, reason) {
      HeldAt(inv, rows, reason, a);
    }
    forall a: nat | a >= n ensures a !in HeldAmong(inv, front, reason) {
      HeldAt(inv, front, reason, a);
    }
    assert HeldAmong(inv, rows, reason)
        == HeldAmong(inv, front, reason) + if IsHeldFor(inv, rows[n], reason) then {n} else {};
  }

  lemma HeldAt(inv: Inventory, rows: seq<nat>, reason: Reason, a: nat)
    requires ForeignKeys(inv) && Rows(inv, rows)
    ensures a in HeldAmong(inv, rows, reason) <==> a < |rows| && IsHeldFor(inv, rows[a], reason)
  {
  }

  /**
   * The summary of a pass counts the chosen listings that are out, that are in, and that are held, reason by reason.
   */
  lemma {:induction false} SummaryColumns(inv: Inventory, rows: seq<nat>, now: Time, reason: Reason)
    requires ForeignKeys(inv) && Rows(inv, rows)
    ensures
      var summary := TallyRows(inv, rows, now);
      && summary.evaluated == |rows|
      && summary.excluded == |OutAmong(inv, rows)| && summary.activated == |InAmong(inv, rows)|
      && Times(summary.held, reason) == |HeldAmong(inv, rows, reason)|
      && summary.stillCandidate == |rows| - summary.excluded - summary.activated
  {
    hide ForeignKeys, DecisionFor, IsOut, IsIn, FirstMissing, EvaluateRows, OutAmong, InAmong, HeldAmong;
    if rows == [] {
      NothingCounted(inv, reason);
    } else {
      var front, last := rows[..|rows| - 1], rows[|rows| - 1];
      SummaryColumns(inv, front, now, reason);
      OutAmongGrows(inv, rows);
      InAmongGrows(inv, rows);
      HeldAmongGrows(inv, rows, reason);
      DecisionStays(inv, front, last, now);
      DecisionColumns(inv, last);
    }
  }

  lemma NothingCounted(inv: Inventory, reason: Reason)
    requires ForeignKeys(inv)
    ensures OutAmong(inv, []) == {} && InAmong(inv, []) == {} && HeldAmong(inv, [], reason) == {}
  {
  }

  lemma DecisionStays(inv: Inventory, rows: seq<nat>, i: nat, now: Time)
    requires ForeignKeys(inv) && Rows(inv, rows) && i < |inv.listings|
    ensures DecisionFor(EvaluateRows(inv, rows, now), i) == DecisionFor(inv, i)
  {
    hide ForeignKeys, EvaluateRows, DecisionFor;
    AdmissionShape(inv, rows, now);
    DecisionIsStable(inv, EvaluateRows(inv, rows, now), i);
  }

  /** A pass writes one event for each listing it decides, unless the listing has it already, and no other event. */
  lemma {:induction false} PassEvents(inv: Inventory, rows: seq<nat>, now: Time)
    requires ForeignKeys(inv) && Rows(inv, rows)
    ensures
      var r := EvaluateRows(inv, rows, now);
      && inv.events <= r.events
      && (forall e :: |inv.events| <= e < |r.events| ==>
            && r.events[e].time == now && r.events[e].before == None && r.events[e].after == None
            && r.events[e].key.listing in rows && r.events[e].key.listing < |inv.listings|
            && r.events[e].key == DecisionKey(inv, r.events[e].key.listing)
            && (IsOut(inv, r.events[e].key.listing) || IsIn(inv, r.events[e].key.listing)))
      && (forall i :: i in rows && i < |inv.listings| && (IsOut(inv, i) || IsIn(inv, i)) ==>
            exists e :: 0 <= e < |r.events| && r.events[e].key == DecisionKey(inv, i))
  {
    hide ForeignKeys, DecisionFor, IsOut, IsIn, FirstMissing, HasKey;
    if rows != [] {
      var front, last := rows[..|rows| - 1], rows[|rows| - 1];
      var before, r := EvaluateRows(inv, front, now), EvaluateRows(inv, rows, now);
      PassEvents(inv, front, now);
      DecisionStays(inv, front, last, now);
      DecisionColumns(inv, last);
      assert rows == front + [last];
      DecisionLogged(before, last, now);
      forall i | i in rows && i < |inv.listings| && (IsOut(inv, i) || IsIn(inv, i))
        ensures exists e :: 0 <= e < |r.events| && r.events[e].key == DecisionKey(inv, i)
      {
        if i in front {
          var e :| 0 <= e < |before.events| && before.events[e].key == DecisionKey(inv, i);
          assert r.events[e].key == DecisionKey(inv, i);
        }
      }
    }
  }

  function DecisionKey(inv: Inventory, i: nat): EventKey
    requires ForeignKeys(inv) && i < |inv.listings|
  {
    EventKey(i, if IsOut(inv, i) then EventKind.Excluded else Activated, ByRule("admission-v1"))
  }

  lemma DecisionLogged(inv: Inventory, i: nat, now: Time)
    requires ForeignKeys(inv) && i < |inv.listings|
    ensures
      var r := EvaluateOne(inv, i, now);
      && inv.events <= r.events
      && (DecisionFor(inv, i).Hold? ==> r.events == inv.events)
      && (!DecisionFor(inv, i).Hold? ==>
            var kind := if DecisionFor(inv, i).Exclude? then EventKind.Excluded else Activated;
            var event := Event(EventKey(i, kind, ByRule("admission-v1")), now, None, None);
            && (r.events == inv.events || r.events == inv.events + [event])
            && exists e :: 0 <= e < |r.events| && r.events[e].key == event.key)
  {
    hide ForeignKeys, DecisionFor;
    var r := EvaluateOne(inv, i, now);
    if |r.events| > |inv.events| {
      assert r.events[|inv.events|].key.listing == i;
    }
  }

  // ---------------------------------------------------------------- where listings lie

  /** Geocoding reaches unlocated addresses only, a verdict located and unresolved ones only; nothing else changes. */
  lemma RelocationColumns(inv: Inventory, step: Step, a: nat)
    requires ForeignKeys(inv) && (step.GeocodeStep? || step.BoundaryStep?) && a < |inv.places.addresses|
    ensures |Apply(inv, step).places.addresses| == |inv.places.addresses|
    ensures Apply(inv, step) == inv.(places := inv.places.(addresses := Apply(inv, step).places.addresses))
    ensures
      var was, after := inv.places.addresses[a], Apply(inv, step).places.addresses[a];
      after == if step.GeocodeStep? && step.address == a && !was.located
            then was.(located := true, precision := step.precision)
            else if step.BoundaryStep? && step.address == a && was.located && was.boundary == Boundary.Unresolved
            then was.(boundary := if step.inScope then Boundary.InScope else Boundary.OutOfScope)
            else was
  {
    hide ForeignKeys;
  }
}
