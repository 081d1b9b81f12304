/** What one disappearance call does, in the columns of the tables and exactly. */
module Inactivation {
  import opened Prelude
  import opened Schema
  import opened Engine
  import opened Shapes
  import opened Disappearance
  import opened Absence
  import R = RealAbsence
  import A = Attachments

  // ---------------------------------------------------------------- links

  /** The gate-passed runs of a source that started after a moment. */
  function PassedSince(runs: seq<SourceRun>, source: nat, since: Time): set<nat> {
    set q: nat | q < |runs| && runs[q].source == source && runs[q].gatePassed == Some(true) && runs[q].startedAt > since
  }

  lemma HealthyRunsAre(runs: seq<SourceRun>, source: nat, since: Time)
    ensures HealthyRunsSince(runs, source, since) == |PassedSince(runs, source, since)|
  {
    var p := (r: SourceRun) => r.source == source && r.gatePassed == Some(true) && r.startedAt > since;
    R.CountIfIsSize(runs, p);
    assert R.Positions(runs, p) == PassedSince(runs, source, since);
  }

  predicate PassedGate(runs: seq<SourceRun>, run: nat) {
    run < |runs| && runs[run].gatePassed == Some(true)
  }

  /** The run looks at the link: it is of its source, and ACTIVE or MISSING. */
  predicate LookedAt(inv: Inventory, run: nat, k: nat) {
    && PassedGate(inv.runs, run) && k < |inv.links| && inv.links[k].source == inv.runs[run].source
    && inv.links[k].status in {LinkStatus.Active, LinkStatus.Missing}
  }

  /**
   * A link looked at is ACTIVE when its newest observation is of the run; otherwise REMOVED once two gate-passed runs
   * of its source started since it was last seen and 36 hours went by, and MISSING until then. Every other link stays.
   */
  lemma LinkAfterCall(inv: Inventory, run: nat, now: Time, k: nat)
    requires ForeignKeys(inv) && k < |inv.links|
    ensures |ProcessSourceRun(inv, run, now).links| == |inv.links|
    ensures inv.links[k].latestObservation < |inv.observations|
    ensures
      var link, after := inv.links[k], ProcessSourceRun(inv, run, now).links[k];
      after == link.(status :=
        if !LookedAt(inv, run, k) then link.status
        else if inv.observations[link.latestObservation].run == run then LinkStatus.Active
        else if |PassedSince(inv.runs, link.source, link.lastSeenAt)| >= 2 && now - link.lastSeenAt >= 36 * 3600
        then LinkStatus.Removed
        else LinkStatus.Missing)
  {
    hide ForeignKeys, ProcessSourceRun, HealthyRunsSince, PassedSince;
    UpdateReads(inv, k);
    DisappearanceShape(inv, run, now);
    SweptStatus(inv, run, now, k);
    HealthyRunsAre(inv.runs, inv.links[k].source, inv.links[k].lastSeenAt);
  }

  // ---------------------------------------------------------------- listings

  /** Some link of the listing is ACTIVE, MISSING or CONFLICTING. */
  predicate HasSupport(links: seq<Link>, i: nat) {
    exists k :: 0 <= k < |links| && links[k].listing == i
      && links[k].status in {LinkStatus.Active, LinkStatus.Missing, LinkStatus.Conflicting}
  }

  /** An ACTIVE override row on its lifecycle. */
  predicate LifecycleHeld(overrides: seq<Override>, i: nat) {
    exists o :: 0 <= o < |overrides| && overrides[o].entity == i && overrides[o].field == LifecycleField
      && overrides[o].status == OverrideStatus.Active
  }

  /** The ACTIVE and CANDIDATE listings that these links do not support and no operator holds. */
  function Unsupported(inv: Inventory, links: seq<Link>): set<nat> {
    set i: nat | i < |inv.listings| && inv.listings[i].lifecycle in {Lifecycle.Active, Lifecycle.Candidate}
      && !HasSupport(links, i) && !LifecycleHeld(inv.facts.overrides, i)
  }

  function ActiveListings(inv: Inventory): set<nat> {
    set i: nat | i < |inv.listings| && inv.listings[i].lifecycle == Lifecycle.Active
  }

  /** The most a call may inactivate: a quarter of the ACTIVE listings, at least one and at most fifty. */
  function MostInactivated(active: nat): nat {
    if active < 8 then 1 else if active >= 200 then 50 else active / 4
  }

  /** The breaker trips when more than that would go. */
  predicate TooMany(inv: Inventory, links: seq<Link>) {
    |Unsupported(inv, links)| > MostInactivated(|ActiveListings(inv)|)
  }

  lemma EligibleAre(inv: Inventory)
    ensures
      var ids := EligibleUpTo(inv, |inv.listings|);
      && (forall i: nat :: i in ids <==> i in Unsupported(inv, inv.links))
      && |ids| == |Unsupported(inv, inv.links)|
  {
    var ids := EligibleUpTo(inv, |inv.listings|);
    forall i: nat ensures i in ids <==> i in Unsupported(inv, inv.links) {
      if i < |inv.listings| {
        SupportedIs(inv.links, i);
        EligibleIffListed(inv, i);
      } else {
        NotListed(inv, i);
      }
    }
    A.SizeOfAnswer(ids, Unsupported(inv, inv.links));
  }

  lemma NotListed(inv: Inventory, i: nat)
    requires i >= |inv.listings|
    ensures i !in EligibleUpTo(inv, |inv.listings|)
  {
    var ids := EligibleUpTo(inv, |inv.listings|);
    assert forall a :: 0 <= a < |ids| ==> ids[a] < |inv.listings|;
  }

  lemma SupportedIs(links: seq<Link>, i: nat)
    ensures Supported(links, i) <==> HasSupport(links, i)
  {
  }

  lemma ActiveAre(inv: Inventory)
    ensures ActiveCount(inv.listings) == |ActiveListings(inv)|
  {
    var p := (l: Listing) => l.lifecycle == Lifecycle.Active;
    R.CountIfIsSize(inv.listings, p);
    assert R.Positions(inv.listings, p) == ActiveListings(inv);
  }

  lemma TripsIs(inv: Inventory)
    ensures Trips(inv) <==> TooMany(inv, inv.links)
  {
    hide EligibleUpTo, Unsupported, ActiveCount, ActiveListings;
    EligibleAre(inv);
    ActiveAre(inv);
  }

  /** The state after the sweep: other statuses and events, everything else as before. */
  lemma SweptIs(inv: Inventory, run: nat, now: Time)
    requires run < |inv.runs|
    ensures
      var swept := Sweep(inv, run, now, |inv.links|);
      && Unsupported(swept, swept.links) == Unsupported(inv, swept.links)
      && ActiveListings(swept) == ActiveListings(inv)
      && (Trips(swept) <==> TooMany(inv, swept.links))
  {
    hide Sweep, Trips;
    TripsIs(Sweep(inv, run, now, |inv.links|));
  }

  /**
   * A call inactivates a listing if and only if its run passed the gate, the listing is ACTIVE or CANDIDATE, all its
   * links ended REMOVED or SUPERSEDED, no operator holds its lifecycle, and not too many listings are in that state.
   */
  lemma InactivatedIff(inv: Inventory, run: nat, now: Time, i: nat)
    requires i < |inv.listings|
    ensures |ProcessSourceRun(inv, run, now).listings| == |inv.listings|
    ensures
      var r := ProcessSourceRun(inv, run, now);
      && (r.listings[i] != inv.listings[i] <==>
            && PassedGate(inv.runs, run) && inv.listings[i].lifecycle in {Lifecycle.Active, Lifecycle.Candidate}
            && (forall k :: 0 <= k < |r.links| && r.links[k].listing == i ==>
                  r.links[k].status in {LinkStatus.Removed, LinkStatus.Superseded})
            && !LifecycleHeld(inv.facts.overrides, i) && !TooMany(inv, r.links))
      && (r.listings[i] != inv.listings[i] ==>
            r.listings[i] == inv.listings[i].(lifecycle := Lifecycle.Inactive, inactiveAt := Some(now)))
  {
    hide ProcessSourceRun, Sweep, Trips, TooMany, EligibleUpTo;
    DisappearanceShape(inv, run, now);
    if PassedGate(inv.runs, run) {
      var swept := Sweep(inv, run, now, |inv.links|);
      AllEligibleOrNone(inv, run, now, i);
      SweptLinks(inv, run, now);
      SweptIs(inv, run, now);
      SupportedIs(swept.links, i);
    } else {
      ClosedGateDoesNothing(inv, run, now);
    }
  }

  /** Any step that makes a listing INACTIVE leaves it without an ACTIVE, MISSING or CONFLICTING link. */
  lemma InactiveHasNoSupport(inv: Inventory, step: Step, i: nat)
    requires ForeignKeys(inv) && i < |inv.listings| && inv.listings[i].lifecycle != Lifecycle.Inactive
    ensures i < |Apply(inv, step).listings|
    ensures Apply(inv, step).listings[i].lifecycle == Lifecycle.Inactive ==>
      && step.DisappearStep? && PassedGate(inv.runs, step.run)
      && (forall k :: 0 <= k < |Apply(inv, step).links| && Apply(inv, step).links[k].listing == i ==>
            Apply(inv, step).links[k].status !in {LinkStatus.Active, LinkStatus.Missing, LinkStatus.Conflicting})
  {
    hide ForeignKeys, ProcessSourceRun, Apply, TooMany;
    InactiveOnlyUnsupported(inv, step, i);
    if step.DisappearStep? {
      DisappearApplies(inv, step);
      InactivatedIff(inv, step.run, step.now, i);
    }
  }

  /** A call that marks a link MISSING inactivates no listing holding that link: one miss is never enough. */
  lemma MissingSpares(inv: Inventory, run: nat, now: Time, k: nat)
    requires ForeignKeys(inv) && k < |inv.links|
    ensures |ProcessSourceRun(inv, run, now).links| == |inv.links|
    ensures inv.links[k].listing < |inv.listings| == |ProcessSourceRun(inv, run, now).listings|
    ensures ProcessSourceRun(inv, run, now).links[k].status == LinkStatus.Missing ==>
              ProcessSourceRun(inv, run, now).listings[inv.links[k].listing] == inv.listings[inv.links[k].listing]
  {
    hide ForeignKeys, ProcessSourceRun, TooMany;
    UpdateReads(inv, k);
    LinkAfterCall(inv, run, now, k);
    InactivatedIff(inv, run, now, inv.links[k].listing);
  }

  // ---------------------------------------------------------------- the breaker's issue, the events, the report

  /**
   * When too many would go nothing but one OPEN issue with the numbers is written; otherwise facts stay as they are.
   */
  lemma BreakerColumns(inv: Inventory, run: nat, now: Time)
    ensures
      var r := ProcessSourceRun(inv, run, now);
      var going := Unsupported(inv, r.links);
      && (!(PassedGate(inv.runs, run) && TooMany(inv, r.links)) ==> r.facts == inv.facts)
      && (PassedGate(inv.runs, run) && TooMany(inv, r.links) ==>
            && r.listings == inv.listings
            && exists first: nat :: first in going && (forall i :: i in going ==> first <= i)
                 && r.facts == inv.facts.(issues := inv.facts.issues + [Issue(
                      first, MassInactivation(|going|, MostInactivated(|ActiveListings(inv)|)), IssueStatus.Open)]))
  {
    hide Sweep, EligibleUpTo, Unsupported, ActiveCount, ActiveListings, InactivateAll;
    if PassedGate(inv.runs, run) {
      var swept := Sweep(inv, run, now, |inv.links|);
      SweptLinks(inv, run, now);
      SweptIs(inv, run, now);
      EligibleAre(swept);
      ActiveAre(swept);
    } else {
      ClosedGateDoesNothing(inv, run, now);
    }
  }

  predicate Logged(events: seq<Event>, key: EventKey) {
    exists e :: 0 <= e < |events| && events[e].key == key
  }

  /** A new event of a call: a link that went missing in this run, or a listing it inactivated. */
  predicate EventOfCall(event: Event, links: seq<Link>, after: seq<Link>, gone: set<nat>, run: nat, now: Time)
    requires |links| == |after|
  {
    && event.time == now && event.before == None && event.after == None
    && ((event.key.kind == MissingStarted && event.key.cause == ByRun(run)
         && exists k :: 0 <= k < |links| && links[k].listing == event.key.listing
              && links[k].status == LinkStatus.Active && after[k].status == LinkStatus.Missing)
        || (event.key == EventKey(event.key.listing, Inactivated, ByRule("disappearance-v1"))
            && event.key.listing in gone))
  }

  /** One link of a sweep: at most the event of its going missing is added, and then it is there. */
  lemma SweepOneLogs(inv: Inventory, run: nat, now: Time, upTo: nat)
    requires run < |inv.runs| && 0 < upTo <= |inv.links|
    ensures
      var before, r := Sweep(inv, run, now, upTo - 1), Sweep(inv, run, now, upTo);
      var event := MissingEvent(inv.links[upTo - 1].listing, run, now);
      && before.events <= r.events
      && (forall e :: |before.events| <= e < |r.events| ==>
            r.events[e] == event && GoesMissing(inv.links, r.links, upTo - 1))
      && (GoesMissing(inv.links, r.links, upTo - 1) ==> Logged(r.events, event.key))
      && (forall j :: 0 <= j < upTo - 1 ==> r.links[j] == before.links[j])
      && (forall j :: upTo - 1 <= j < |inv.links| ==> before.links[j] == inv.links[j])
  {
    hide NextStatus, Logged;
    var before := Sweep(inv, run, now, upTo - 1);
    var k := upTo - 1;
    StatusReads(inv, before, k, run, now);
    EmitLogs(before.events, MissingEvent(inv.links[k].listing, run, now));
  }

  predicate GoesMissing(links: seq<Link>, after: seq<Link>, k: nat)
    requires |links| == |after|
  {
    k < |links| && links[k].status == LinkStatus.Active && after[k].status == LinkStatus.Missing
  }

  /** The event of a link among the first `upTo` that went missing. */
  predicate FromGoing(event: Event, links: seq<Link>, after: seq<Link>, upTo: nat, run: nat, now: Time)
    requires |links| == |after| && upTo <= |links|
  {
    exists k :: 0 <= k < upTo && GoesMissing(links, after, k) && event == MissingEvent(links[k].listing, run, now)
  }

  lemma GoingStays(
      event: Event, links: seq<Link>, a: seq<Link>, b: seq<Link>, upTo: nat, run: nat, now: Time)
    requires |links| == |a| == |b| && upTo < |links| && forall j :: 0 <= j < upTo ==> a[j] == b[j]
    requires FromGoing(event, links, a, upTo, run, now)
    ensures FromGoing(event, links, b, upTo + 1, run, now)
  {
    var k :| 0 <= k < upTo && GoesMissing(links, a, k) && event == MissingEvent(links[k].listing, run, now);
    assert GoesMissing(links, b, k);
  }

  lemma {:induction false} SweepWrites(inv: Inventory, run: nat, now: Time, upTo: nat)
    requires run < |inv.runs| && upTo <= |inv.links|
    ensures inv.events <= Sweep(inv, run, now, upTo).events
    ensures forall e :: |inv.events| <= e < |Sweep(inv, run, now, upTo).events| ==>
              FromGoing(Sweep(inv, run, now, upTo).events[e], inv.links, Sweep(inv, run, now, upTo).links, upTo, run,
                        now)
  {
    hide Sweep, GoesMissing, Logged, FromGoing;
    if upTo == 0 {
      NothingSwept(inv, run, now);
    } else {
      SweepWrites(inv, run, now, upTo - 1);
      SweepOneLogs(inv, run, now, upTo);
      var before, r := Sweep(inv, run, now, upTo - 1), Sweep(inv, run, now, upTo);
      forall e | |inv.events| <= e < |r.events| ensures FromGoing(r.events[e], inv.links, r.links, upTo, run, now) {
        if e < |before.events| {
          GoingStays(before.events[e], inv.links, before.links, r.links, upTo - 1, run, now);
        } else {
          LastGoing(r.events[e], inv.links, r.links, upTo, run, now);
        }
      }
    }
  }

  lemma LastGoing(event: Event, links: seq<Link>, after: seq<Link>, upTo: nat, run: nat, now: Time)
    requires |links| == |after| && 0 < upTo <= |links|
    requires GoesMissing(links, after, upTo - 1) && event == MissingEvent(links[upTo - 1].listing, run, now)
    ensures FromGoing(event, links, after, upTo, run, now)
  {
  }

  lemma NothingSwept(inv: Inventory, run: nat, now: Time)
    requires run < |inv.runs|
    ensures Sweep(inv, run, now, 0) == inv
  {
  }

  lemma SameGoing(links: seq<Link>, a: seq<Link>, b: seq<Link>, k: nat)
    requires |links| == |a| == |b| && k < |links| && a[k] == b[k]
    ensures GoesMissing(links, a, k) <==> GoesMissing(links, b, k)
  {
  }

  lemma {:induction false} SweepLogsAll(inv: Inventory, run: nat, now: Time, upTo: nat, k: nat)
    requires run < |inv.runs| && k < upTo <= |inv.links|
    requires GoesMissing(inv.links, Sweep(inv, run, now, upTo).links, k)
    ensures Logged(Sweep(inv, run, now, upTo).events, EventKey(inv.links[k].listing, MissingStarted, ByRun(run)))
  {
    hide Sweep, GoesMissing, Logged;
    SweepOneLogs(inv, run, now, upTo);
    if k < upTo - 1 {
      var before, r := Sweep(inv, run, now, upTo - 1), Sweep(inv, run, now, upTo);
      SameGoing(inv.links, before.links, r.links, k);
      SweepLogsAll(inv, run, now, upTo - 1, k);
      LoggedStays(before.events, r.events, EventKey(inv.links[k].listing, MissingStarted, ByRun(run)));
    }
  }

  lemma StatusReads(inv: Inventory, r: Inventory, k: nat, run: nat, now: Time)
    requires run < |inv.runs| && k < |inv.links| && r.runs == inv.runs && r.observations == inv.observations
    ensures NextStatus(r, inv.links[k], run, now) == NextStatus(inv, inv.links[k], run, now)
  {
  }

  lemma EmitLogs(events: seq<Event>, event: Event)
    ensures events <= Emit(events, event) && Logged(Emit(events, event), event.key)
    ensures forall e :: |events| <= e < |Emit(events, event)| ==> Emit(events, event)[e] == event
  {
    if !HasKey(events, event.key) {
      assert Emit(events, event)[|events|] == event;
    }
  }

  lemma LoggedStays(before: seq<Event>, after: seq<Event>, key: EventKey)
    requires before <= after && Logged(before, key)
    ensures Logged(after, key)
  {
    var e :| 0 <= e < |before| && before[e].key == key;
    assert after[e].key == key;
  }

  lemma {:induction false} InactivationLogs(inv: Inventory, ids: seq<nat>, now: Time)
    requires forall a :: 0 <= a < |ids| ==> ids[a] < |inv.listings|
    ensures
      var r := InactivateAll(inv, ids, now);
      && inv.events <= r.events
      && (forall e :: |inv.events| <= e < |r.events| ==>
            && r.events[e].time == now && r.events[e].before == None && r.events[e].after == None
            && r.events[e].key.listing in ids
            && r.events[e].key == EventKey(r.events[e].key.listing, Inactivated, ByRule("disappearance-v1")))
      && (forall i :: i in ids ==> Logged(r.events, EventKey(i, Inactivated, ByRule("disappearance-v1"))))
  {
    hide Logged;
    if ids != [] {
      var front, last := ids[..|ids| - 1], ids[|ids| - 1];
      InactivationLogs(inv, front, now);
      assert ids == front + [last];
      var before, r := InactivateAll(inv, front, now), InactivateAll(inv, ids, now);
      EmitLogs(before.events, InactivatedEvent(last, now));
      forall i | i in front ensures Logged(r.events, EventKey(i, Inactivated, ByRule("disappearance-v1"))) {
        LoggedStays(before.events, r.events, EventKey(i, Inactivated, ByRule("disappearance-v1")));
      }
    }
  }

  /**
   * The events of a call are MISSING_STARTED of this run for links that went from ACTIVE to MISSING, and INACTIVATED
   * for listings it inactivated; each of those has its event, unless it had it before.
   */
  lemma EventsOfCall(inv: Inventory, run: nat, now: Time)
    requires PassedGate(inv.runs, run)
    ensures
      var r := ProcessSourceRun(inv, run, now);
      var gone := if TooMany(inv, r.links) then {} else Unsupported(inv, r.links);
      && |r.links| == |inv.links| && inv.events <= r.events
      && (forall e :: |inv.events| <= e < |r.events| ==> EventOfCall(r.events[e], inv.links, r.links, gone, run, now))
      && (forall k :: 0 <= k < |inv.links| && inv.links[k].status == LinkStatus.Active
            && r.links[k].status == LinkStatus.Missing
            ==> Logged(r.events, EventKey(inv.links[k].listing, MissingStarted, ByRun(run))))
      && (forall i :: i in gone ==> Logged(r.events, EventKey(i, Inactivated, ByRule("disappearance-v1"))))
  {
    hide Sweep, EligibleUpTo, Trips, InactivateAll, TooMany, Unsupported, Logged, BreakerIssue;
    var r := ProcessSourceRun(inv, run, now);
    var swept := Sweep(inv, run, now, |inv.links|);
    SweepWrites(inv, run, now, |inv.links|);
    SweptLinks(inv, run, now);
    SweptIs(inv, run, now);
    EligibleAre(swept);
    var ids := EligibleUpTo(swept, |swept.listings|);
    InactivationLogs(swept, ids, now);
    assert r.events == swept.events || r.events == InactivateAll(swept, ids, now).events;
    forall k | 0 <= k < |inv.links| && inv.links[k].status == LinkStatus.Active
      && r.links[k].status == LinkStatus.Missing
      ensures Logged(r.events, EventKey(inv.links[k].listing, MissingStarted, ByRun(run)))
    {
      SweepLogsAll(inv, run, now, |inv.links|, k);
      LoggedStays(swept.events, r.events, EventKey(inv.links[k].listing, MissingStarted, ByRun(run)));
    }
  }

  function NewlyMissing(links: seq<Link>, after: seq<Link>): set<nat>
    requires |links| == |after|
  {
    set k: nat | k < |links| && links[k].status == LinkStatus.Active && after[k].status == LinkStatus.Missing
  }

  function NewlyRemoved(links: seq<Link>, after: seq<Link>): set<nat>
    requires |links| == |after|
  {
    set k: nat | k < |links| && links[k].status != LinkStatus.Removed && after[k].status == LinkStatus.Removed
  }

  function MissingAmong(inv: Inventory, run: nat, now: Time, upTo: nat): set<nat>
    requires run < |inv.runs| && upTo <= |inv.links|
  {
    set k: nat | k < upTo && StartsMissing(inv, inv.links[k], run, now)
  }

  function RemovedAmong(inv: Inventory, run: nat, now: Time, upTo: nat): set<nat>
    requires run < |inv.runs| && upTo <= |inv.links|
  {
    set k: nat | k < upTo && IsRemoved(inv, inv.links[k], run, now)
  }

  lemma {:induction false} MissingCounts(inv: Inventory, run: nat, now: Time, upTo: nat)
    requires run < |inv.runs| && upTo <= |inv.links|
    ensures MissingCount(inv, run, now, upTo) == |MissingAmong(inv, run, now, upTo)|
  {
    hide StartsMissing;
    if upTo == 0 {
      assert MissingAmong(inv, run, now, upTo) == {};
    } else {
      MissingCounts(inv, run, now, upTo - 1);
      assert MissingAmong(inv, run, now, upTo) == MissingAmong(inv, run, now, upTo - 1)
        + if StartsMissing(inv, inv.links[upTo - 1], run, now) then {upTo - 1} else {};
    }
  }

  lemma {:induction false} RemovedCounts(inv: Inventory, run: nat, now: Time, upTo: nat)
    requires run < |inv.runs| && upTo <= |inv.links|
    ensures RemovedCount(inv, run, now, upTo) == |RemovedAmong(inv, run, now, upTo)|
  {
    hide IsRemoved;
    if upTo == 0 {
      assert RemovedAmong(inv, run, now, upTo) == {};
    } else {
      RemovedCounts(inv, run, now, upTo - 1);
      assert RemovedAmong(inv, run, now, upTo) == RemovedAmong(inv, run, now, upTo - 1)
        + if IsRemoved(inv, inv.links[upTo - 1], run, now) then {upTo - 1} else {};
    }
  }

  /** The caller is told how many links went missing and were removed, and how many listings would go and went. */
  lemma ReportColumns(inv: Inventory, run: nat, now: Time)
    requires run < |inv.runs|
    ensures |ProcessSourceRun(inv, run, now).links| == |inv.links|
    ensures
      var s, r := Report(inv, run, now), ProcessSourceRun(inv, run, now);
      && (!PassedGate(inv.runs, run) ==> s == Summary(true, 0, 0, 0, false, 0))
      && (PassedGate(inv.runs, run) ==>
            && !s.refused && s.markedMissing == |NewlyMissing(inv.links, r.links)|
            && s.removed == |NewlyRemoved(inv.links, r.links)|
            && s.proposed == |Unsupported(inv, r.links)| && (s.breakerTripped <==> TooMany(inv, r.links))
            && s.inactivated == if TooMany(inv, r.links) then 0 else s.proposed)
  {
    hide ProcessSourceRun, Sweep, EligibleUpTo, Trips, TooMany, Unsupported, MissingCount, RemovedCount;
    DisappearanceShape(inv, run, now);
    if PassedGate(inv.runs, run) {
      var r, swept := ProcessSourceRun(inv, run, now), Sweep(inv, run, now, |inv.links|);
      SweptLinks(inv, run, now);
      SweptIs(inv, run, now);
      EligibleAre(swept);
      MissingCounts(inv, run, now, |inv.links|);
      RemovedCounts(inv, run, now, |inv.links|);
      assert MissingAmong(inv, run, now, |inv.links|) == NewlyMissing(inv.links, r.links);
      assert RemovedAmong(inv, run, now, |inv.links|) == NewlyRemoved(inv.links, r.links);
    }
  }
}
