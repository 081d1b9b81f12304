/** Absence as evidence: link sweeps, inactivation of unsupported listings, and the circuit breaker. */
module Disappearance {
  import opened Prelude
  import opened Schema
  import opened FactHistory

  const REMOVAL_CONSECUTIVE_MISSES := 2
  const REMOVAL_MIN_ELAPSED := 36 * 3600
  const BREAKER_ABSOLUTE_MAX := 50
  const RULE_VERSION := "disappearance-v1"

  datatype Summary = Summary(
    refused: bool, markedMissing: nat, removed: nat, inactivated: nat, breakerTripped: bool, proposed: nat)

  // ---------------------------------------------------------------- links

  /** The gate-passed runs of the source that started later, whether or not they saw the link. */
  function HealthyRunsSince(runs: seq<SourceRun>, source: nat, since: Time): nat {
    CountIf(runs, (r: SourceRun) => r.source == source && r.gatePassed == Some(true) && r.startedAt > since)
  }

  /** The link's newest processed observation was made by this run; what still waits to be processed does not show. */
  predicate ObservedIn(observations: seq<Observation>, link: Link, run: nat) {
    link.latestObservation < |observations| && observations[link.latestObservation].run == run
  }

  predicate Swept(link: Link, source: nat) {
    link.source == source && (link.status == LinkStatus.Active || link.status == LinkStatus.Missing)
  }

  predicate LongGone(runs: seq<SourceRun>, link: Link, now: Time) {
    && HealthyRunsSince(runs, link.source, link.lastSeenAt) >= REMOVAL_CONSECUTIVE_MISSES
    && now - link.lastSeenAt >= REMOVAL_MIN_ELAPSED
  }

  function NextStatus(inv: Inventory, link: Link, run: nat, now: Time): LinkStatus
    requires run < |inv.runs|
  {
    if !Swept(link, inv.runs[run].source) then link.status
    else if ObservedIn(inv.observations, link, run) then LinkStatus.Active
    else if LongGone(inv.runs, link, now) then LinkStatus.Removed
    else LinkStatus.Missing
  }

  predicate StartsMissing(inv: Inventory, link: Link, run: nat, now: Time)
    requires run < |inv.runs|
  {
    link.status == LinkStatus.Active && NextStatus(inv, link, run, now) == LinkStatus.Missing
  }

  predicate IsRemoved(inv: Inventory, link: Link, run: nat, now: Time)
    requires run < |inv.runs|
  {
    link.status != LinkStatus.Removed && NextStatus(inv, link, run, now) == LinkStatus.Removed
  }

  function MissingEvent(listing: nat, run: nat, now: Time): Event {
    Event(EventKey(listing, MissingStarted, ByRun(run)), now, None, None)
  }

  function SweepLink(inv: Inventory, k: nat, run: nat, now: Time): Inventory
    requires k < |inv.links| && run < |inv.runs|
  {
    var link := inv.links[k];
    inv.(links := inv.links[k := link.(status := NextStatus(inv, link, run, now))],
         events := if StartsMissing(inv, link, run, now) then Emit(inv.events, MissingEvent(link.listing, run, now))
                   else inv.events)
  }

  /** The loop over the links, `upTo` of them visited. */
  function Sweep(inv: Inventory, run: nat, now: Time, upTo: nat): (r: Inventory)
    requires upTo <= |inv.links| && run < |inv.runs|
    ensures |r.links| == |inv.links|
    ensures r == inv.(links := r.links, events := r.events)
    ensures forall k :: 0 <= k < upTo ==>
              r.links[k] == inv.links[k].(status := NextStatus(inv, inv.links[k], run, now))
    ensures forall k :: upTo <= k < |inv.links| ==> r.links[k] == inv.links[k]
  {
    if upTo == 0 then inv else SweepLink(Sweep(inv, run, now, upTo - 1), upTo - 1, run, now)
  }

  // ---------------------------------------------------------------- listings

  predicate Supports(status: LinkStatus) {
    status == LinkStatus.Active || status == LinkStatus.Missing || status == LinkStatus.Conflicting
  }

  predicate Supported(links: seq<Link>, i: nat) {
    exists k :: 0 <= k < |links| && links[k].listing == i && Supports(links[k].status)
  }

  predicate Eligible(inv: Inventory, i: nat)
    requires i < |inv.listings|
  {
    && (inv.listings[i].lifecycle == Lifecycle.Active || inv.listings[i].lifecycle == Lifecycle.Candidate)
    && !Supported(inv.links, i)
    && !Overridden(inv.facts.overrides, i, LifecycleField)
  }

  /** The eligible listings among the first `upTo`, in table order. */
  function EligibleUpTo(inv: Inventory, upTo: nat): (ids: seq<nat>)
    requires upTo <= |inv.listings|
    ensures |ids| <= upTo
    ensures forall a :: 0 <= a < |ids| ==> ids[a] < upTo && Eligible(inv, ids[a])
    ensures forall a, b :: 0 <= a < b < |ids| ==> ids[a] < ids[b]
    ensures forall i: nat :: i < upTo && Eligible(inv, i) ==> i in ids
  {
    if upTo == 0 then
      []
    else
      EligibleUpTo(inv, upTo - 1) + if Eligible(inv, upTo - 1) then [upTo - 1] else []
  }

  function ActiveCount(listings: seq<Listing>): nat {
    CountIf(listings, (l: Listing) => l.lifecycle == Lifecycle.Active)
  }

  /** min(50, max(1, int(active * 0.25))). */
  function Cap(active: nat): nat {
    Min(BREAKER_ABSOLUTE_MAX, Max(1, active / 4))
  }

  function InactivatedEvent(i: nat, now: Time): Event {
    Event(EventKey(i, Inactivated, ByRule(RULE_VERSION)), now, None, None)
  }

  function Inactivate(inv: Inventory, i: nat, now: Time): Inventory
    requires i < |inv.listings|
  {
    inv.(listings := inv.listings[i := inv.listings[i].(lifecycle := Lifecycle.Inactive, inactiveAt := Some(now))],
         events := Emit(inv.events, InactivatedEvent(i, now)))
  }

  function InactivateAll(inv: Inventory, ids: seq<nat>, now: Time): (r: Inventory)
    requires forall a :: 0 <= a < |ids| ==> ids[a] < |inv.listings|
    ensures |r.listings| == |inv.listings|
    ensures r == inv.(listings := r.listings, events := r.events)
  {
    if ids == [] then inv
    else Inactivate(InactivateAll(inv, ids[..|ids| - 1], now), ids[|ids| - 1], now)
  }

  function BreakerIssue(ids: seq<nat>, cap: nat): Issue
    requires ids != []
  {
    Issue(ids[0], MassInactivation(|ids|, cap), IssueStatus.Open)
  }

  predicate Trips(inv: Inventory) {
    |EligibleUpTo(inv, |inv.listings|)| > Cap(ActiveCount(inv.listings))
  }

  /** All eligible listings or none: above the cap only a blocking issue is raised. */
  function InactivateUnsupported(inv: Inventory, now: Time): Inventory {
    var ids := EligibleUpTo(inv, |inv.listings|);
    if ids == [] then inv
    else if Trips(inv) then
      inv.(facts := inv.facts.(issues := inv.facts.issues + [BreakerIssue(ids, Cap(ActiveCount(inv.listings)))]))
    else InactivateAll(inv, ids, now)
  }

  predicate GateOpen(runs: seq<SourceRun>, run: nat) {
    run < |runs| && runs[run].gatePassed == Some(true)
  }

  function ProcessSourceRun(inv: Inventory, run: nat, now: Time): Inventory {
    if !GateOpen(inv.runs, run) then inv
    else InactivateUnsupported(Sweep(inv, run, now, |inv.links|), now)
  }

  /** How many of the first `upTo` links a sweep newly marks missing, and newly removes. */
  function MissingCount(inv: Inventory, run: nat, now: Time, upTo: nat): nat
    requires upTo <= |inv.links| && run < |inv.runs|
  {
    if upTo == 0 then 0
    else MissingCount(inv, run, now, upTo - 1) + if StartsMissing(inv, inv.links[upTo - 1], run, now) then 1 else 0
  }

  function RemovedCount(inv: Inventory, run: nat, now: Time, upTo: nat): nat
    requires upTo <= |inv.links| && run < |inv.runs|
  {
    if upTo == 0 then 0
    else RemovedCount(inv, run, now, upTo - 1) + if IsRemoved(inv, inv.links[upTo - 1], run, now) then 1 else 0
  }

  /** What the caller is told. */
  function Report(inv: Inventory, run: nat, now: Time): Summary
    requires run < |inv.runs|
  {
    if !GateOpen(inv.runs, run) then
      Summary(true, 0, 0, 0, false, 0)
    else
      var swept := Sweep(inv, run, now, |inv.links|);
      var proposed := |EligibleUpTo(swept, |swept.listings|)|;
      Summary(false, MissingCount(inv, run, now, |inv.links|), RemovedCount(inv, run, now, |inv.links|),
              if Trips(swept) then 0 else proposed, Trips(swept), proposed)
  }

  // ---------------------------------------------------------------- the service object

  class DisappearanceService {
    const db: Database

    constructor (db: Database)
      ensures this.db == db
    {
      this.db := db;
    }

    method Process(run: nat, now: Time) returns (r: Result<Summary>)
      modifies db`links, db`events, db`listings, db`issues
      ensures db.State() == ProcessSourceRun(old(db.State()), run, now)
      ensures r == if run < |db.runs| then Success(Report(old(db.State()), run, now)) else Failure(RowNotFound)
    {
      hide Sweep, InactivateUnsupported, EligibleUpTo, Trips;
      if run >= |db.runs| {
        return Failure(RowNotFound);
      }
      if db.runs[run].gatePassed != Some(true) {
        return Success(Summary(true, 0, 0, 0, false, 0));
      }
      var missing, removed := SweepLinks(run, now);
      var inactivated, tripped, proposed := InactivateUnsupportedListings(now);
      return Success(Summary(false, missing, removed, inactivated, tripped, proposed));
    }

    method SweepOne(k: nat, run: nat, now: Time) returns (missing: bool, removed: bool)
      requires k < |db.links| && run < |db.runs|
      modifies db`links, db`events
      ensures db.State() == SweepLink(old(db.State()), k, run, now)
      ensures missing == StartsMissing(old(db.State()), old(db.links)[k], run, now)
      ensures removed == IsRemoved(old(db.State()), old(db.links)[k], run, now)
    {
      hide HealthyRunsSince, Emit, ObservedIn;
      missing, removed := false, false;
      var link := db.links[k];
      if link.source == db.runs[run].source
        && (link.status == LinkStatus.Active || link.status == LinkStatus.Missing)
      {
        if ObservedIn(db.observations, link, run) {
          if link.status == LinkStatus.Missing {
            db.links := db.links[k := link.(status := LinkStatus.Active)];
          }
        } else {
          var misses := HealthyRunsSince(db.runs, link.source, link.lastSeenAt);
          if misses >= REMOVAL_CONSECUTIVE_MISSES && now - link.lastSeenAt >= REMOVAL_MIN_ELAPSED {
            db.links := db.links[k := link.(status := LinkStatus.Removed)];
            removed := true;
          } else if link.status == LinkStatus.Active {
            db.links := db.links[k := link.(status := LinkStatus.Missing)];
            missing := true;
            var _ := db.EmitEvent(MissingEvent(link.listing, run, now));
          }
        }
      }
      assert db.links == old(db.links)[k := link.(status := NextStatus(old(db.State()), link, run, now))];
    }

    method SweepLinks(run: nat, now: Time) returns (missing: nat, removed: nat)
      requires run < |db.runs|
      modifies db`links, db`events
      ensures db.State() == Sweep(old(db.State()), run, now, |old(db.links)|)
      ensures missing == MissingCount(old(db.State()), run, now, |old(db.links)|)
      ensures removed == RemovedCount(old(db.State()), run, now, |old(db.links)|)
    {
      missing, removed := 0, 0;
      for k: nat := 0 to |db.links|
        invariant |db.links| == |old(db.links)|
        invariant db.State() == Sweep(old(db.State()), run, now, k)
        invariant missing == MissingCount(old(db.State()), run, now, k)
        invariant removed == RemovedCount(old(db.State()), run, now, k)
      {
        hide SweepLink, HealthyRunsSince, ObservedIn;
        var isMissing, isRemoved := SweepOne(k, run, now);
        missing := missing + if isMissing then 1 else 0;
        removed := removed + if isRemoved then 1 else 0;
      }
    }

    method FindEligible() returns (eligible: seq<nat>)
      ensures eligible == EligibleUpTo(db.State(), |db.listings|)
    {
      hide Supported, Overridden;
      eligible := [];
      for i: nat := 0 to |db.listings|
        invariant eligible == EligibleUpTo(db.State(), i)
      {
        var listing := db.listings[i];
        if (listing.lifecycle == Lifecycle.Active || listing.lifecycle == Lifecycle.Candidate)
          && !Supported(db.links, i) && !Overridden(db.overrides, i, LifecycleField)
        {
          eligible := eligible + [i];
        }
      }
    }

    method InactivateEach(ids: seq<nat>, now: Time) returns (inactivated: nat)
      requires forall a :: 0 <= a < |ids| ==> ids[a] < |db.listings|
      modifies db`listings, db`events
      ensures db.State() == InactivateAll(old(db.State()), ids, now)
      ensures inactivated == |ids|
    {
      hide Emit;
      inactivated := 0;
      while inactivated < |ids|
        invariant inactivated <= |ids|
        invariant |db.listings| == |old(db.listings)|
        invariant db.State() == InactivateAll(old(db.State()), ids[..inactivated], now)
      {
        var i := ids[inactivated];
        db.listings := db.listings[i := db.listings[i].(lifecycle := Lifecycle.Inactive)];
        db.listings := db.listings[i := db.listings[i].(inactiveAt := Some(now))];
        var _ := db.EmitEvent(InactivatedEvent(i, now));
        assert ids[..inactivated + 1][..inactivated] == ids[..inactivated];
        inactivated := inactivated + 1;
      }
      assert ids[..inactivated] == ids;
    }

    method InactivateUnsupportedListings(now: Time) returns (inactivated: nat, tripped: bool, proposed: nat)
      modifies db`listings, db`events, db`issues
      ensures db.State() == InactivateUnsupported(old(db.State()), now)
      ensures proposed == |EligibleUpTo(old(db.State()), |old(db.listings)|)|
      ensures tripped == Trips(old(db.State()))
      ensures inactivated == if Trips(old(db.State())) then 0 else proposed
    {
      hide InactivateAll, EligibleUpTo, ActiveCount;
      var eligible := FindEligible();
      proposed := |eligible|;
      inactivated, tripped := 0, false;
      if eligible == [] {
        return;
      }
      var cap := Cap(ActiveCount(db.listings));
      if |eligible| > cap {
        tripped := true;
        db.issues := db.issues + [BreakerIssue(eligible, cap)];
        return;
      }
      inactivated := InactivateEach(eligible, now);
    }
  }
}
