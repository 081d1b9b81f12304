/** When absence is real: what a sweep may conclude from the links alone, and the discipline that makes it true. */
module RealAbsence {
  import opened Prelude
  import opened Schema
  import opened Normalization
  import opened MergeService
  import opened Engine
  import opened Shapes
  import opened Disappearance
  import opened Absence
  import EventLogRuns
  import Admission

  // ---------------------------------------------------------------- sightings

  /** Observation `o` is a usable sighting of the link. */
  predicate Sights(inv: Inventory, link: Link, o: nat) {
    o < |inv.observations| && Usable(inv.observations[o]) && Matches(link, inv.observations[o])
  }

  /** The run stored a usable observation of the link, processed or not. */
  ghost predicate SeenBy(inv: Inventory, link: Link, run: nat) {
    exists o: nat :: Sights(inv, link, o) && inv.observations[o].run == run
  }

  /** Every link is as fresh as a stored sighting of it says. */
  ghost predicate Witnessed(inv: Inventory) {
    forall k :: 0 <= k < |inv.links| ==>
      && Sights(inv, inv.links[k], inv.links[k].latestObservation)
      && inv.links[k].lastSeenAt == inv.observations[inv.links[k].latestObservation].observedAt
  }

  // ---------------------------------------------------------------- what a step does to sightings

  /** The same link as far as sightings go: only its owner and its status may differ. */
  predicate SameSightings(a: Link, b: Link) {
    b == a.(listing := b.listing, status := b.status)
  }

  /** Observations and runs stay; every old link keeps its identity. */
  predicate Extends(inv: Inventory, r: Inventory) {
    && inv.observations <= r.observations
    && |inv.runs| <= |r.runs|
    && (forall q :: 0 <= q < |inv.runs| ==> r.runs[q].startedAt == inv.runs[q].startedAt)
    && |inv.links| <= |r.links|
  }

  lemma OtherStepSightings(inv: Inventory, step: Step)
    requires ForeignKeys(inv) && !step.NormalizeStep?
    ensures Extends(inv, Apply(inv, step)) && |Apply(inv, step).links| == |inv.links|
    ensures forall k :: 0 <= k < |inv.links| ==> SameSightings(inv.links[k], Apply(inv, step).links[k])
  {
    hide ForeignKeys, ProcessSourceRun, Admission.EvaluateRows, Emit, MovedLinks, CloseIssues,
      CheckCandidate, Admission.IsSelection;
    match step {
      case DisappearStep(run, now) => DisappearanceShape(inv, run, now);
      case ReverseStep(m, actor, now) =>
        if CheckReverse(inv.merges, m, actor).None? { ReverseKeepsKeys(inv, m, now); }
      case NormalizeStep(_, _, _) =>
      case _ =>
    }
  }

  /** Link `k` after its observation `o` was processed: touched, or just opened by it. */
  predicate Refreshed(inv: Inventory, r: Inventory, o: nat, k: nat)
    requires o < |inv.observations|
  {
    var row := inv.observations[o];
    && |r.links| == Max(|inv.links|, k + 1) && k <= |inv.links| && Matches(r.links[k], row)
    && (k < |inv.links| ==> r.links[k] == TouchLink(inv.links[k], row, o))
    && (k == |inv.links| ==>
          && r.links[k].latestObservation == o && r.links[k].lastSeenAt == row.observedAt
          && r.links[k].source == row.source && r.links[k].nativeId == row.nativeId && r.links[k].url == row.url)
    && (forall j :: 0 <= j < |inv.links| && j != k ==> r.links[j] == inv.links[j] && !Matches(inv.links[j], row))
  }

  lemma NoneMatches(links: seq<Link>, row: Observation)
    requires MatchingLinks(links, row) == []
    ensures forall k :: 0 <= k < |links| ==> !Matches(links[k], row)
  {
    var ids := MatchingLinks(links, row);
    assert forall k: nat :: k < |links| && Matches(links[k], row) ==> k in ids;
  }

  /** Processing refreshes or opens the one link that matches the observation, or does nothing. */
  lemma NormalizeRefreshes(inv: Inventory, o: nat, via: DiscoveryMethod, now: Time) returns (k: nat)
    requires ForeignKeys(inv) && Witnessed(inv)
    ensures Normalized(inv, o, via, now).observations == inv.observations
    ensures Normalized(inv, o, via, now).runs == inv.runs
    ensures Processes(inv, o) ==> o < |inv.observations| && Refreshed(inv, Normalized(inv, o, via, now), o, k)
    ensures !Processes(inv, o) ==> Normalized(inv, o, via, now) == inv
  {
    hide AddListing, UpdateExisting, PlacesGrow, PlacesRefer, Normalized, CaseOf, MatchingLinks, Processes, ForeignKeys;
    NormalizedByCase(inv, o, via, now);
    ProcessesByCase(inv, o);
    k := |inv.links|;
    match CaseOf(inv, o)
    case Nothing =>
    case Attaching(places, listing, identity) =>
      NoneMatches(inv.links, inv.observations[o]);
    case Adding(places, building, unit) =>
      NoneMatches(inv.links, inv.observations[o]);
      AddShape(inv.(places := places), o, building, unit, via, now);
    case Updating(j) =>
      k := j;
      EventLogRuns.OnlyLinkMatches(inv, o, j);
      UpdateShape(inv, o, j, now);
  }

  lemma StepKeepsWitnessed(inv: Inventory, step: Step)
    requires ForeignKeys(inv) && Witnessed(inv)
    ensures Witnessed(Apply(inv, step))
  {
    hide ForeignKeys, Normalized, Processes, Apply;
    var r := Apply(inv, step);
    if step.NormalizeStep? {
      NormalizeApplies(inv, step);
      var k := NormalizeRefreshes(inv, step.observation, step.via, step.now);
      if Processes(inv, step.observation) {
        ProcessesUsable(inv, step.observation);
        assert forall j :: 0 <= j < |inv.links| ==> Sights(inv, inv.links[j], inv.links[j].latestObservation);
      }
    } else {
      OtherStepSightings(inv, step);
      forall k | 0 <= k < |r.links| ensures Sights(r, r.links[k], r.links[k].latestObservation) {
        assert Sights(inv, inv.links[k], inv.links[k].latestObservation);
      }
    }
  }

  /** In every run every link's last_seen_at is the time of a stored, usable sighting of it. */
  lemma {:induction false} RunKeepsWitnessed(inv: Inventory, steps: seq<Step>)
    requires ForeignKeys(inv) && Witnessed(inv)
    ensures Witnessed(Run(inv, steps))
    decreases |steps|
  {
    hide ForeignKeys, Apply, Witnessed;
    if steps != [] {
      ApplyKeepsKeys(inv, steps[0]);
      StepKeepsWitnessed(inv, steps[0]);
      RunKeepsWitnessed(Apply(inv, steps[0]), steps[1..]);
    }
  }

  // ---------------------------------------------------------------- one sweep

  /** The sweep of `run` judges the link: it is ACTIVE or MISSING and of the run's source. */
  predicate Judged(inv: Inventory, run: nat, k: nat) {
    run < |inv.runs| && k < |inv.links| && Swept(inv.links[k], inv.runs[run].source)
  }

  /** The newest processed observation of the link is of the run. */
  predicate PointsAt(inv: Inventory, k: nat, run: nat)
    requires k < |inv.links|
  {
    ObservedIn(inv.observations, inv.links[k], run)
  }

  lemma JudgedByPointer(inv: Inventory, run: nat, now: Time, k: nat)
    requires GateOpen(inv.runs, run) && Judged(inv, run, k)
    ensures k < |ProcessSourceRun(inv, run, now).links|
    ensures ProcessSourceRun(inv, run, now).links[k].status == LinkStatus.Active <==> PointsAt(inv, k, run)
  {
    hide ProcessSourceRun, HealthyRunsSince, ObservedIn;
    SweptStatus(inv, run, now, k);
  }

  /** A sweep spares every link the run saw if and only if each of them points at an observation of the run. */
  lemma SeenLinksAreSparedIff(inv: Inventory, run: nat, now: Time)
    requires GateOpen(inv.runs, run)
    ensures
      (forall k: nat :: Judged(inv, run, k) && SeenBy(inv, inv.links[k], run) ==>
         k < |ProcessSourceRun(inv, run, now).links|
         && ProcessSourceRun(inv, run, now).links[k].status == LinkStatus.Active)
      <==>
      (forall k: nat :: Judged(inv, run, k) && SeenBy(inv, inv.links[k], run) ==> PointsAt(inv, k, run))
  {
    hide ProcessSourceRun, SeenBy, HealthyRunsSince, PointsAt;
    forall k: nat | Judged(inv, run, k)
      ensures k < |ProcessSourceRun(inv, run, now).links|
      ensures ProcessSourceRun(inv, run, now).links[k].status == LinkStatus.Active <==> PointsAt(inv, k, run)
    {
      JudgedByPointer(inv, run, now, k);
    }
  }

  /** A sweep judges a link rightly, ACTIVE when the run saw it and only then, if and only if the link is not stale. */
  lemma JudgedRightlyIff(inv: Inventory, run: nat, now: Time, k: nat)
    requires Witnessed(inv) && GateOpen(inv.runs, run) && Judged(inv, run, k)
    ensures k < |ProcessSourceRun(inv, run, now).links|
    ensures (ProcessSourceRun(inv, run, now).links[k].status == LinkStatus.Active <==> SeenBy(inv, inv.links[k], run))
        <==> (SeenBy(inv, inv.links[k], run) ==> PointsAt(inv, k, run))
  {
    hide ProcessSourceRun, HealthyRunsSince;
    JudgedByPointer(inv, run, now, k);
    assert Sights(inv, inv.links[k], inv.links[k].latestObservation);
  }

  // ---------------------------------------------------------------- an orderly history

  /** The observations processed without an error so far. */
  function DoneAfter(inv: Inventory, done: set<nat>, step: Step): set<nat>
    requires ForeignKeys(inv)
  {
    if step.NormalizeStep? && Processes(inv, step.observation) then done + {step.observation} else done
  }

  function RunStart(inv: Inventory, o: nat): Time
    requires ForeignKeys(inv) && o < |inv.observations|
  {
    inv.runs[inv.observations[o].run].startedAt
  }

  /** No observation of the link's source made in a gate-passed run is left to process. */
  predicate CaughtUp(inv: Inventory, done: set<nat>, source: nat)
    requires ForeignKeys(inv)
  {
    forall o: nat | o < |inv.observations| && Usable(inv.observations[o]) && inv.observations[o].source == source ::
      inv.runs[inv.observations[o].run].gatePassed == Some(true) ==> o in done
  }

  /** No link the sweep judges points at what another run observed since this one started. */
  predicate NothingNewer(inv: Inventory, run: nat)
    requires ForeignKeys(inv) && run < |inv.runs|
  {
    forall k: nat | k < |inv.links| && Judged(inv, run, k) ::
      PointsAt(inv, k, run) || LatestRow(inv, k).observedAt < inv.runs[run].startedAt
  }

  function LatestRow(inv: Inventory, k: nat): Observation
    requires ForeignKeys(inv) && k < |inv.links|
  {
    assert LinkRefers(inv.links[k], inv);
    inv.observations[inv.links[k].latestObservation]
  }

  /** The link that the observation opens when it matches none. */
  function LinkOpenedBy(inv: Inventory, p: nat): Link
    requires p < |inv.observations|
  {
    NewLink(|inv.listings|, p, inv.observations[p], DiscoveryMethod.Direct, SourceNativeContinuity)
  }

  /** An observation that opens a link is not older than a run that already had a sighting of that link processed. */
  predicate OpensInTurn(inv: Inventory, done: set<nat>, p: nat)
    requires ForeignKeys(inv)
  {
    p < |inv.observations| && (forall k :: 0 <= k < |inv.links| ==> !Matches(inv.links[k], inv.observations[p])) ==>
      forall o :: o in done && Sights(inv, LinkOpenedBy(inv, p), o) ==>
        RunStart(inv, o) <= inv.observations[p].observedAt
  }

  /**
   * What the caller keeps to: an observation is not older than its run; it opens no link that a later run was already
   * seen to sight; and a run is swept when every gate-passed run of its source is processed and no link it judges
   * points beyond it.
   */
  predicate Orderly(inv: Inventory, done: set<nat>, step: Step)
    requires ForeignKeys(inv)
  {
    match step
    case Observe(row) => row.run < |inv.runs| ==> inv.runs[row.run].startedAt <= row.observedAt
    case NormalizeStep(p, _, _) => OpensInTurn(inv, done, p)
    case DisappearStep(run, _) => GateOpen(inv.runs, run) ==>
      CaughtUp(inv, done, inv.runs[run].source) && NothingNewer(inv, run)
    case _ => true
  }

  ghost predicate OrderlyRun(inv: Inventory, done: set<nat>, steps: seq<Step>)
    requires ForeignKeys(inv)
    decreases |steps|
  {
    steps == []
    || (ApplyKeepsKeys(inv, steps[0]);
        Orderly(inv, done, steps[0])
        && OrderlyRun(Apply(inv, steps[0]), DoneAfter(inv, done, steps[0]), steps[1..]))
  }

  ghost function DoneBy(inv: Inventory, done: set<nat>, steps: seq<Step>): set<nat>
    requires ForeignKeys(inv)
    decreases |steps|
  {
    if steps == [] then done
    else
      ApplyKeepsKeys(inv, steps[0]);
      DoneBy(Apply(inv, steps[0]), DoneAfter(inv, done, steps[0]), steps[1..])
  }

  lemma {:induction false} OrderlySnoc(inv: Inventory, done: set<nat>, steps: seq<Step>, step: Step)
    requires ForeignKeys(inv) && OrderlyRun(inv, done, steps)
    requires Orderly(Run(inv, steps), DoneBy(inv, done, steps), step)
    ensures OrderlyRun(inv, done, steps + [step])
    ensures DoneBy(inv, done, steps + [step]) == DoneAfter(Run(inv, steps), DoneBy(inv, done, steps), step)
    decreases |steps|
  {
    hide ForeignKeys, Apply, Orderly, DoneAfter;
    if steps == [] {
      ApplyKeepsKeys(inv, step);
      assert ([] + [step])[1..] == [];
    } else {
      ApplyKeepsKeys(inv, steps[0]);
      assert (steps + [step])[1..] == steps[1..] + [step];
      OrderlySnoc(Apply(inv, steps[0]), DoneAfter(inv, done, steps[0]), steps[1..], step);
    }
  }

  /** A link has been seen since the start of every run one of whose processed observations sights it. */
  ghost predicate Abreast(inv: Inventory, done: set<nat>)
    requires ForeignKeys(inv)
  {
    forall k: nat, o: nat :: k < |inv.links| && o in done && Sights(inv, inv.links[k], o) ==>
      RunStart(inv, o) <= inv.links[k].lastSeenAt
  }

  predicate Timely(inv: Inventory)
    requires ForeignKeys(inv)
  {
    forall o: nat :: o < |inv.observations| ==> RunStart(inv, o) <= inv.observations[o].observedAt
  }

  ghost predicate Tracked(inv: Inventory, done: set<nat>)
    requires ForeignKeys(inv)
  {
    && Witnessed(inv) && Timely(inv) && Abreast(inv, done)
    && (forall k :: 0 <= k < |inv.links| ==> inv.links[k].latestObservation in done)
    && (forall o :: o in done ==> o < |inv.observations|)
  }

  lemma NormalizeKeepsAbreast(inv: Inventory, done: set<nat>, o: nat, via: DiscoveryMethod, now: Time)
    requires ForeignKeys(inv) && Tracked(inv, done) && OpensInTurn(inv, done, o) && Processes(inv, o)
    requires ForeignKeys(Normalized(inv, o, via, now))
    ensures Tracked(Normalized(inv, o, via, now), done + {o})
  {
    hide ForeignKeys, Normalized, Processes;
    var r := Normalized(inv, o, via, now);
    var c := NormalizeRefreshes(inv, o, via, now);
    ProcessesUsable(inv, o);
    forall k: nat, p: nat | k < |r.links| && p in done + {o} && Sights(r, r.links[k], p)
      ensures RunStart(inv, p) <= r.links[k].lastSeenAt
    {
      assert Timely(inv) && RunStart(inv, o) <= inv.observations[o].observedAt;
      if k < |inv.links| {
        assert p in done ==> Sights(inv, inv.links[k], p);
      } else {
        assert Sights(inv, LinkOpenedBy(inv, o), p);
      }
    }
  }

  lemma StepKeepsTracked(inv: Inventory, done: set<nat>, step: Step)
    requires ForeignKeys(inv) && Tracked(inv, done) && Orderly(inv, done, step)
    ensures ForeignKeys(Apply(inv, step)) && Tracked(Apply(inv, step), DoneAfter(inv, done, step))
  {
    hide ForeignKeys, Normalized, Processes, Apply;
    var r := Apply(inv, step);
    ApplyKeepsKeys(inv, step);
    if step.NormalizeStep? {
      NormalizeApplies(inv, step);
      if Processes(inv, step.observation) {
        NormalizeKeepsAbreast(inv, done, step.observation, step.via, step.now);
      } else {
        var _ := NormalizeRefreshes(inv, step.observation, step.via, step.now);
      }
    } else {
      StepKeepsWitnessed(inv, step);
      OtherStepSightings(inv, step);
      ObservedInTime(inv, step);
      forall k: nat, o: nat | k < |r.links| && o in done && Sights(r, r.links[k], o)
        ensures RunStart(r, o) <= r.links[k].lastSeenAt
      {
        assert Sights(inv, inv.links[k], o);
        SameStart(inv, r, o);
      }
    }
  }

  lemma SameStart(inv: Inventory, r: Inventory, o: nat)
    requires ForeignKeys(inv) && ForeignKeys(r) && Extends(inv, r) && o < |inv.observations|
    ensures RunStart(r, o) == RunStart(inv, o)
  {
  }

  lemma ObservedInTime(inv: Inventory, step: Step)
    requires ForeignKeys(inv) && Timely(inv) && !step.NormalizeStep? && (step.Observe? ==> Orderly(inv, {}, step))
    requires ForeignKeys(Apply(inv, step))
    ensures Timely(Apply(inv, step))
  {
    hide ForeignKeys, Apply;
    var r := Apply(inv, step);
    OtherStepSightings(inv, step);
    forall o: nat | o < |r.observations| ensures RunStart(r, o) <= r.observations[o].observedAt {
      if o < |inv.observations| {
        SameStart(inv, r, o);
      } else {
        NewestRow(inv, step, o);
      }
    }
  }

  /** Only the environment stores observations, and no run starts or ends with it. */
  lemma NewestRow(inv: Inventory, step: Step, o: nat)
    requires ForeignKeys(inv) && !step.NormalizeStep? && |inv.observations| <= o < |Apply(inv, step).observations|
    ensures step.Observe? && step.row.run < |inv.runs| && Apply(inv, step).runs == inv.runs
    ensures Apply(inv, step).observations[o] == step.row
  {
    hide ForeignKeys, ProcessSourceRun, Admission.EvaluateRows, Emit, MovedLinks, Relink, MoveBack;
    match step {
      case DisappearStep(run, now) => DisappearanceShape(inv, run, now);
      case ReverseStep(m, actor, now) =>
        if CheckReverse(inv.merges, m, actor).None? { ReverseKeepsKeys(inv, m, now); }
      case NormalizeStep(_, _, _) =>
      case _ =>
    }
  }

  lemma {:induction false} RunKeepsTracked(inv: Inventory, done: set<nat>, steps: seq<Step>)
    requires ForeignKeys(inv) && Tracked(inv, done) && OrderlyRun(inv, done, steps)
    ensures Tracked(Run(inv, steps), DoneBy(inv, done, steps))
    decreases |steps|
  {
    hide ForeignKeys, Apply, Tracked, Orderly, DoneAfter;
    if steps != [] {
      StepKeepsTracked(inv, done, steps[0]);
      RunKeepsTracked(Apply(inv, steps[0]), DoneAfter(inv, done, steps[0]), steps[1..]);
    }
  }

  // ---------------------------------------------------------------- under it absence is real

  /** The gate-passed runs of the link's source that began after the link was last seen and did not see it. */
  ghost function Misses(inv: Inventory, link: Link): set<nat> {
    set q: nat | q < |inv.runs| && CountsFor(inv.runs[q], link) && !SeenBy(inv, link, q)
  }

  /** The run is one of those `_healthy_runs_since` counts. */
  predicate CountsFor(run: SourceRun, link: Link) {
    run.source == link.source && run.gatePassed == Some(true) && run.startedAt > link.lastSeenAt
  }

  function Positions<T>(rows: seq<T>, p: T -> bool): set<nat> {
    set q: nat | q < |rows| && p(rows[q])
  }

  lemma {:induction false} CountIfIsSize<T>(rows: seq<T>, p: T -> bool)
    ensures CountIf(rows, p) == |Positions(rows, p)|
  {
    if rows == [] {
      assert Positions(rows, p) == {};
    } else {
      var last := |rows| - 1;
      CountIfIsSize(rows[..last], p);
      assert Positions(rows, p) == Positions(rows[..last], p) + if p(rows[last]) then {last} else {};
    }
  }

  /** Every run that is counted against a link really missed it. */
  lemma CountedRunsMissed(inv: Inventory, done: set<nat>, link: Link, k: nat)
    requires ForeignKeys(inv) && Tracked(inv, done) && k < |inv.links| && inv.links[k] == link
    requires CaughtUp(inv, done, link.source)
    ensures forall q: nat :: q < |inv.runs| && CountsFor(inv.runs[q], link) ==> !SeenBy(inv, link, q)
    ensures HealthyRunsSince(inv.runs, link.source, link.lastSeenAt) == |Misses(inv, link)|
  {
    assert forall o: nat | Sights(inv, link, o) && inv.runs[inv.observations[o].run].gatePassed == Some(true) ::
        o in done && RunStart(inv, o) <= link.lastSeenAt;
    var source, since := link.source, link.lastSeenAt;
    var p := (r: SourceRun) => r.source == source && r.gatePassed == Some(true) && r.startedAt > since;
    CountIfIsSize(inv.runs, p);
    assert HealthyRunsSince(inv.runs, source, since) == CountIf(inv.runs, p);
    assert Positions(inv.runs, p) == Misses(inv, link);
  }

  /** A processed sighting by the swept run is what the link points at. */
  lemma SeenIsPointedAt(inv: Inventory, done: set<nat>, run: nat, k: nat)
    requires ForeignKeys(inv) && Tracked(inv, done) && GateOpen(inv.runs, run) && Judged(inv, run, k)
    requires CaughtUp(inv, done, inv.runs[run].source) && NothingNewer(inv, run)
    ensures SeenBy(inv, inv.links[k], run) <==> ObservedIn(inv.observations, inv.links[k], run)
    ensures !SeenBy(inv, inv.links[k], run) ==> run in Misses(inv, inv.links[k])
  {
    var link := inv.links[k];
    assert Sights(inv, link, link.latestObservation);
    if SeenBy(inv, link, run) {
      var o: nat :| Sights(inv, link, o) && inv.observations[o].run == run;
      assert o in done && RunStart(inv, o) <= link.lastSeenAt;
    }
  }

  /** What an orderly history entitles a sweep to say of a link. */
  ghost function Verdict(inv: Inventory, run: nat, now: Time, link: Link): LinkStatus {
    if SeenBy(inv, link, run) then LinkStatus.Active
    else if |Misses(inv, link)| >= 2 && now - link.lastSeenAt >= 36 * 3600 then LinkStatus.Removed
    else LinkStatus.Missing
  }

  /** In an orderly history a sweep judges every link of its source by what its runs really saw. */
  lemma SweepIsReal(inv: Inventory, done: set<nat>, run: nat, now: Time, k: nat)
    requires ForeignKeys(inv) && Tracked(inv, done) && GateOpen(inv.runs, run) && Judged(inv, run, k)
    requires CaughtUp(inv, done, inv.runs[run].source) && NothingNewer(inv, run)
    ensures k < |ProcessSourceRun(inv, run, now).links|
    ensures ProcessSourceRun(inv, run, now).links[k].status == Verdict(inv, run, now, inv.links[k])
    ensures !SeenBy(inv, inv.links[k], run) ==> run in Misses(inv, inv.links[k])
  {
    hide ProcessSourceRun, ForeignKeys, Tracked, CaughtUp, NothingNewer, SeenBy, Misses;
    SweptStatus(inv, run, now, k);
    SeenIsPointedAt(inv, done, run, k);
    CountedRunsMissed(inv, done, inv.links[k], k);
  }

  /** The sweep of a gate-passed run of the link's source that stored no sighting of it. */
  ghost predicate Missed(inv: Inventory, step: Step, k: nat) {
    step.DisappearStep? && GateOpen(inv.runs, step.run) && Judged(inv, step.run, k)
      && !SeenBy(inv, inv.links[k], step.run)
  }

  /** The sweep of a gate-passed run of the link's source that stored a sighting of it. */
  ghost predicate Found(inv: Inventory, step: Step, k: nat) {
    step.DisappearStep? && GateOpen(inv.runs, step.run) && Judged(inv, step.run, k)
      && SeenBy(inv, inv.links[k], step.run)
  }

  /**
   * After any orderly run, from the empty database for one, and for any next orderly step: a link becomes REMOVED
   * exactly when a sweep missed it, at least two gate-passed runs since it was last seen missed it, this one among
   * them, and 36 hours passed; it becomes MISSING exactly when a sweep missed it without that, and ACTIVE again exactly
   * when a sweep found it.
   */
  lemma AbsenceIsReal(start: Inventory, done: set<nat>, steps: seq<Step>, step: Step, k: nat)
    requires ForeignKeys(start) && Tracked(start, done) && OrderlyRun(start, done, steps)
    requires
      var inv := Run(start, steps);
      Orderly(inv, DoneBy(start, done, steps), step) && k < |inv.links|
    ensures
      var inv := Run(start, steps);
      var link := inv.links[k];
      && k < |Apply(inv, step).links|
      && (link.status != LinkStatus.Removed ==>
            (Apply(inv, step).links[k].status == LinkStatus.Removed <==>
              Missed(inv, step, k) && |Misses(inv, link)| >= 2 && step.now - link.lastSeenAt >= 36 * 3600))
      && (link.status != LinkStatus.Missing ==>
            (Apply(inv, step).links[k].status == LinkStatus.Missing <==>
              Missed(inv, step, k) && !(|Misses(inv, link)| >= 2 && step.now - link.lastSeenAt >= 36 * 3600)))
      && (Missed(inv, step, k) ==> step.run in Misses(inv, link))
      && (link.status == LinkStatus.Missing ==>
            (Apply(inv, step).links[k].status == LinkStatus.Active <==> Found(inv, step, k)))
  {
    hide ForeignKeys, Tracked, Apply, Orderly, OrderlyRun, SeenBy, Misses, ProcessSourceRun, CaughtUp, NothingNewer;
    RunKeepsTracked(start, done, steps);
    var inv := Run(start, steps);
    var processed := DoneBy(start, done, steps);
    if step.DisappearStep? {
      DisappearApplies(inv, step);
      if GateOpen(inv.runs, step.run) && Judged(inv, step.run, k) {
        assert CaughtUp(inv, processed, inv.runs[step.run].source) && NothingNewer(inv, step.run) by {
          SweepInTurn(inv, processed, step);
        }
        SweepIsReal(inv, processed, step.run, step.now, k);
      } else {
        SweptStatus(inv, step.run, step.now, k);
      }
    } else {
      OtherStepKeepsStatus(inv, step, k);
    }
  }

  lemma SweepInTurn(inv: Inventory, done: set<nat>, step: Step)
    requires ForeignKeys(inv) && step.DisappearStep? && Orderly(inv, done, step) && GateOpen(inv.runs, step.run)
    ensures CaughtUp(inv, done, inv.runs[step.run].source) && NothingNewer(inv, step.run)
  {
  }

  /** The empty database is where every history may start. */
  lemma EmptyIsTracked()
    ensures ForeignKeys(EMPTY_INVENTORY) && Tracked(EMPTY_INVENTORY, {})
  {
  }
}
