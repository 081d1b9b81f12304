/** Admission: CANDIDATE listings become ACTIVE or EXCLUDED, or are held for a stated reason. */
module Admission {
  import opened Prelude
  import opened Schema

  const RULE_VERSION := "admission-v1"

  datatype Reason =
    | LayoutUnresolved | GeographyUnresolved | PrecisionInsufficient | IdentityBlocked | NoActiveSourceLink

  datatype Decision = Activate | Exclude | Hold(reason: Reason)

  datatype Summary = Summary(evaluated: nat, activated: nat, excluded: nat, stillCandidate: nat, held: map<Reason, nat>)

  predicate AdmissibleLayout(layout: LayoutClass) {
    layout == LayoutClass.Studio || layout == LayoutClass.OneBedroom || layout == LayoutClass.TwoBedroom
  }

  predicate AcceptablePrecision(precision: Precision) {
    || precision == Precision.RooftopOrEntrance || precision == Precision.Building
    || precision == Precision.Parcel || precision == Precision.InterpolatedAddress
  }

  predicate Blocking(resolution: CanonicalResolution) {
    resolution == CanonicalResolution.Conflicting || resolution == CanonicalResolution.ReviewRequired
  }

  predicate HasActiveLink(links: seq<Link>, i: nat) {
    exists k :: 0 <= k < |links| && links[k].listing == i && links[k].status == LinkStatus.Active
  }

  /** The address behind a listing's building. */
  function AddressOf(inv: Inventory, i: nat): Address
    requires ForeignKeys(inv) && i < |inv.listings|
  {
    inv.places.addresses[inv.places.buildings[inv.listings[i].building].address]
  }

  predicate IsPending(listing: Listing) {
    listing.lifecycle == Lifecycle.Candidate || listing.lifecycle == Lifecycle.Reappeared
  }

  function Decide(listing: Listing, address: Address, hasActiveLink: bool): Decision {
    if listing.layout == LayoutClass.OutOfScope || address.boundary == Boundary.OutOfScope then Exclude
    else if !AdmissibleLayout(listing.layout) then Hold(LayoutUnresolved)
    else if address.boundary != Boundary.InScope then Hold(GeographyUnresolved)
    else if !AcceptablePrecision(address.precision) then Hold(PrecisionInsufficient)
    else if Blocking(listing.resolution) then Hold(IdentityBlocked)
    else if !hasActiveLink then Hold(NoActiveSourceLink)
    else Activate
  }

  function DecisionFor(inv: Inventory, i: nat): Decision
    requires ForeignKeys(inv) && i < |inv.listings|
  {
    Decide(inv.listings[i], AddressOf(inv, i), HasActiveLink(inv.links, i))
  }

  function AdmissionEvent(i: nat, kind: EventKind, now: Time): Event {
    Event(EventKey(i, kind, ByRule(RULE_VERSION)), now, None, None)
  }

  function SetLifecycle(inv: Inventory, i: nat, lifecycle: Lifecycle, kind: EventKind, now: Time): Inventory
    requires i < |inv.listings|
  {
    inv.(listings := inv.listings[i := inv.listings[i].(lifecycle := lifecycle)],
         events := Emit(inv.events, AdmissionEvent(i, kind, now)))
  }

  function EvaluateOne(inv: Inventory, i: nat, now: Time): (r: Inventory)
    requires ForeignKeys(inv) && i < |inv.listings|
    ensures ForeignKeys(r) && |r.listings| == |inv.listings|
    ensures r == inv.(listings := r.listings, events := r.events)
  {
    match DecisionFor(inv, i)
    case Activate => SetLifecycle(inv, i, Lifecycle.Active, Activated, now)
    case Exclude => SetLifecycle(inv, i, Lifecycle.Excluded, EventKind.Excluded, now)
    case Hold(_) => inv
  }

  function EvaluateRows(inv: Inventory, rows: seq<nat>, now: Time): (r: Inventory)
    requires ForeignKeys(inv) && forall a :: 0 <= a < |rows| ==> rows[a] < |inv.listings|
    ensures ForeignKeys(r) && |r.listings| == |inv.listings|
    ensures r == inv.(listings := r.listings, events := r.events)
  {
    if rows == [] then inv
    else EvaluateOne(EvaluateRows(inv, rows[..|rows| - 1], now), rows[|rows| - 1], now)
  }

  function Bump(held: map<Reason, nat>, reason: Reason): map<Reason, nat> {
    held[reason := (if reason in held then held[reason] else 0) + 1]
  }

  function Tally(summary: Summary, decision: Decision): Summary {
    var next := summary.(evaluated := summary.evaluated + 1);
    match decision
    case Activate => next.(activated := summary.activated + 1)
    case Exclude => next.(excluded := summary.excluded + 1)
    case Hold(reason) => next.(stillCandidate := summary.stillCandidate + 1, held := Bump(summary.held, reason))
  }

  const NOTHING_YET := Summary(0, 0, 0, 0, map[])

  function TallyRows(inv: Inventory, rows: seq<nat>, now: Time): Summary
    requires ForeignKeys(inv) && forall a :: 0 <= a < |rows| ==> rows[a] < |inv.listings|
  {
    if rows == [] then
      NOTHING_YET
    else
      var front := rows[..|rows| - 1];
      Tally(TallyRows(inv, front, now), DecisionFor(EvaluateRows(inv, front, now), rows[|rows| - 1]))
  }

  /** What SELECT ... LIMIT may answer: distinct pending listings, all of them unless the limit cuts in. */
  ghost predicate IsSelection(listings: seq<Listing>, rows: seq<nat>, limit: nat) {
    && |rows| <= limit
    && (forall a, b :: 0 <= a < b < |rows| ==> rows[a] != rows[b])
    && (forall a :: 0 <= a < |rows| ==> rows[a] < |listings| && IsPending(listings[rows[a]]))
    && (|rows| < limit ==> forall i: nat :: i < |listings| && IsPending(listings[i]) ==> i in rows)
  }

  class AdmissionService {
    const db: Database

    constructor (db: Database)
      ensures this.db == db
    {
      this.db := db;
    }

    /** One admissible answer of the query: the first pending rows in table order. */
    method SelectPending(limit: nat) returns (rows: seq<nat>)
      ensures IsSelection(db.listings, rows, limit)
    {
      rows := [];
      var i: nat := 0;
      while i < |db.listings| && |rows| < limit
        invariant i <= |db.listings| && |rows| <= limit
        invariant forall a, b :: 0 <= a < b < |rows| ==> rows[a] != rows[b]
        invariant forall a :: 0 <= a < |rows| ==> rows[a] < i && IsPending(db.listings[rows[a]])
        invariant forall j: nat :: j < i && IsPending(db.listings[j]) ==> j in rows
      {
        if IsPending(db.listings[i]) {
          rows := rows + [i];
        }
        i := i + 1;
      }
    }

    method Evaluate(i: nat, now: Time) returns (decision: Decision)
      requires ForeignKeys(db.State()) && i < |db.listings|
      modifies db`listings, db`events
      ensures db.State() == EvaluateOne(old(db.State()), i, now)
      ensures decision == DecisionFor(old(db.State()), i)
    {
      var listing := db.listings[i];
      var address := db.addresses[db.buildings[listing.building].address];
      if listing.layout == LayoutClass.OutOfScope || address.boundary == Boundary.OutOfScope {
        db.listings := db.listings[i := listing.(lifecycle := Lifecycle.Excluded)];
        var _ := db.EmitEvent(AdmissionEvent(i, EventKind.Excluded, now));
        return Exclude;
      }
      if !AdmissibleLayout(listing.layout) {
        return Hold(LayoutUnresolved);
      }
      if address.boundary != Boundary.InScope {
        return Hold(GeographyUnresolved);
      }
      if !AcceptablePrecision(address.precision) {
        return Hold(PrecisionInsufficient);
      }
      if Blocking(listing.resolution) {
        return Hold(IdentityBlocked);
      }
      if !HasActiveLink(db.links, i) {
        return Hold(NoActiveSourceLink);
      }
      db.listings := db.listings[i := listing.(lifecycle := Lifecycle.Active)];
      var _ := db.EmitEvent(AdmissionEvent(i, Activated, now));
      return Activate;
    }

    method EvaluateCandidates(limit: nat, now: Time) returns (summary: Summary, ghost rows: seq<nat>)
      requires ForeignKeys(db.State())
      modifies db`listings, db`events
      ensures IsSelection(old(db.listings), rows, limit)
      ensures db.State() == EvaluateRows(old(db.State()), rows, now)
      ensures summary == TallyRows(old(db.State()), rows, now)
    {
      hide DecisionFor, EvaluateOne, PlacesRefer;
      var selected := SelectPending(limit);
      rows := selected;
      summary := NOTHING_YET;
      var n := 0;
      while n < |selected|
        invariant 0 <= n <= |selected|
        invariant ForeignKeys(db.State()) && |db.listings| == |old(db.listings)|
        invariant db.State() == EvaluateRows(old(db.State()), selected[..n], now)
        invariant summary == TallyRows(old(db.State()), selected[..n], now)
      {
        var decision := Evaluate(selected[n], now);
        summary := summary.(evaluated := summary.evaluated + 1);
        match decision {
          case Activate => summary := summary.(activated := summary.activated + 1);
          case Exclude => summary := summary.(excluded := summary.excluded + 1);
          case Hold(reason) =>
            summary := summary.(stillCandidate := summary.stillCandidate + 1, held := Bump(summary.held, reason));
        }
        assert selected[..n + 1][..n] == selected[..n];
        n := n + 1;
      }
      assert selected[..n] == selected;
    }
  }
}
