/** Reachable runs in which a link is removed or marked missing although runs saw it, or without being missing first. */
module AbsenceWitness {
  import opened Prelude
  import opened Schema
  import opened Normalization
  import opened Engine
  import opened Shapes
  import opened Disappearance
  import opened Absence
  import opened RealAbsence
  import opened Reachable
  import opened Sightings

  ghost predicate OrderlyFromEmpty(steps: seq<Step>) {
    EmptyIsSound();
    OrderlyRun(EMPTY_INVENTORY, {}, steps)
  }

  lemma ExtendOrderly(steps: seq<Step>, step: Step)
    requires OrderlyFromEmpty(steps) && forall done :: Orderly(FromEmpty(steps), done, step)
    ensures OrderlyFromEmpty(steps + [step])
  {
    hide ForeignKeys, Orderly, OrderlyRun;
    EmptyIsSound();
    assert Orderly(FromEmpty(steps), DoneBy(EMPTY_INVENTORY, {}, steps), step);
    OrderlySnoc(EMPTY_INVENTORY, {}, steps, step);
  }

  /** In an orderly history the one sweep ever made finds the link ACTIVE and, two runs having missed it, removes it. */
  lemma RemovedWithoutMissing() returns (before: seq<Step>, last: Step)
    ensures (forall s :: 0 <= s < |before| ==> !before[s].DisappearStep?) && last == DisappearStep(2, 36 * 3600)
    ensures OrderlyFromEmpty(before + [last])
    ensures |FromEmpty(before).links| == 1 && FromEmpty(before).links[0].status == LinkStatus.Active
    ensures |FromEmpty(before + [last]).links| >= 1 && FromEmpty(before + [last]).links[0].status == LinkStatus.Removed
  {
    hide FromEmpty, ForeignKeys, HealthyRunsSince, Apply, OrderlyFromEmpty;
    var seen := OpenedAtZero();
    before := HealthyRun(seen, 1);
    before := HealthyRun(before, 2);
    last := DisappearStep(2, 36 * 3600);
    Extend(before, last);
    var after := FromEmpty(before);
    TwoHealthyRuns(after.runs);
    RemovedExactlyOnEvidence(after, last, 0);
    ExtendOrderly(before, last);
  }

  /** A run of source 0 opens at time `n` and closes healthy. */
  lemma HealthyRun(steps: seq<Step>, n: nat) returns (more: seq<Step>)
    requires |FromEmpty(steps).runs| == n
    ensures more == steps + [OpenRun(0, n)] + [CloseRun(n, SourceRunStatus.Healthy, DiscoveryMethod.Direct)]
    ensures FromEmpty(more) == FromEmpty(steps).(
              runs := FromEmpty(steps).runs + [SourceRun(0, n, SourceRunStatus.Healthy, Some(true))])
    ensures OrderlyFromEmpty(steps) ==> OrderlyFromEmpty(more)
  {
    hide FromEmpty, ForeignKeys, OrderlyFromEmpty;
    var inv := FromEmpty(steps);
    Extend(steps, OpenRun(0, n));
    var open := inv.(runs := inv.runs + [SourceRun(0, n, SourceRunStatus.Pending, None)]);
    assert FromEmpty(steps + [OpenRun(0, n)]) == open;
    Extend(steps + [OpenRun(0, n)], CloseRun(n, SourceRunStatus.Healthy, DiscoveryMethod.Direct));
    more := steps + [OpenRun(0, n)] + [CloseRun(n, SourceRunStatus.Healthy, DiscoveryMethod.Direct)];
    if OrderlyFromEmpty(steps) {
      ExtendOrderly(steps, OpenRun(0, n));
      ExtendOrderly(steps + [OpenRun(0, n)], CloseRun(n, SourceRunStatus.Healthy, DiscoveryMethod.Direct));
    }
    assert open.runs[n := SourceRun(0, n, SourceRunStatus.Healthy, Some(true))]
        == inv.runs + [SourceRun(0, n, SourceRunStatus.Healthy, Some(true))];
  }

  /** The listing "a" as run `n` of source 0 sees it at time `n`. */
  function SeenAgain(n: nat): Observation {
    Sighting("a", n, LayoutClass.Unknown).(run := n)
  }

  /** Such a run that also stores a sighting of "a". */
  lemma HealthySighting(steps: seq<Step>, n: nat) returns (more: seq<Step>)
    requires |FromEmpty(steps).runs| == n
    ensures more == steps + [OpenRun(0, n)] + [Observe(SeenAgain(n))]
                      + [CloseRun(n, SourceRunStatus.Healthy, DiscoveryMethod.Direct)]
    ensures FromEmpty(more) == FromEmpty(steps).(
              runs := FromEmpty(steps).runs + [SourceRun(0, n, SourceRunStatus.Healthy, Some(true))],
              observations := FromEmpty(steps).observations + [SeenAgain(n)])
  {
    hide FromEmpty, ForeignKeys;
    var inv := FromEmpty(steps);
    Extend(steps, OpenRun(0, n));
    var open := inv.(runs := inv.runs + [SourceRun(0, n, SourceRunStatus.Pending, None)]);
    assert FromEmpty(steps + [OpenRun(0, n)]) == open;
    var begun := steps + [OpenRun(0, n)];
    Extend(begun, Observe(SeenAgain(n)));
    var observed := open.(observations := open.observations + [SeenAgain(n)]);
    assert FromEmpty(begun + [Observe(SeenAgain(n))]) == observed;
    Extend(begun + [Observe(SeenAgain(n))], CloseRun(n, SourceRunStatus.Healthy, DiscoveryMethod.Direct));
    more := begun + [Observe(SeenAgain(n))] + [CloseRun(n, SourceRunStatus.Healthy, DiscoveryMethod.Direct)];
    assert open.runs[n := SourceRun(0, n, SourceRunStatus.Healthy, Some(true))]
        == inv.runs + [SourceRun(0, n, SourceRunStatus.Healthy, Some(true))];
  }

  /** "a" was opened at time 0, and by nothing else. */
  lemma OpenedAtZero() returns (steps: seq<Step>)
    ensures OrderlyFromEmpty(steps) && forall s :: 0 <= s < |steps| ==> !steps[s].DisappearStep?
    ensures
      var inv := FromEmpty(steps);
      && inv.runs == [SourceRun(0, 0, SourceRunStatus.Pending, None)]
      && inv.observations == [Sighting("a", 0, LayoutClass.Unknown)]
      && inv.links == [NewLink(0, 0, inv.observations[0], DiscoveryMethod.Direct, SourceNativeContinuity)]
  {
    hide FromEmpty, Unseen, OrderlyFromEmpty, ForeignKeys;
    var row := Sighting("a", 0, LayoutClass.Unknown);
    var started := OneRun();
    OtherIdIsUnseen(FromEmpty(started).links, "a", 0, LayoutClass.Unknown);
    steps := SightBlank(started, row);
    assert OrderlyFromEmpty([]) by { NothingIsOrderly(); }
    assert [] + [OpenRun(0, 0)] == started;
    ExtendOrderly([], OpenRun(0, 0));
    ExtendOrderly(started, Observe(row));
    var stored := started + [Observe(row)];
    Extend(started, Observe(row));
    ExtendOrderly(stored, NormalizeStep(0, DiscoveryMethod.Direct, 0));
  }

  lemma NothingIsOrderly()
    ensures OrderlyFromEmpty([])
  {
  }

  /** Both counted runs stored a sighting that still waits to be processed, and the link is removed. */
  lemma RemovedThoughSeen() returns (before: seq<Step>, last: Step)
    ensures
      var inv := FromEmpty(before);
      && last == DisappearStep(2, 36 * 3600) && |inv.links| == 1 && inv.links[0].status == LinkStatus.Active
      && SeenBy(inv, inv.links[0], 1) && SeenBy(inv, inv.links[0], 2)
    ensures |FromEmpty(before + [last]).links| >= 1 && FromEmpty(before + [last]).links[0].status == LinkStatus.Removed
  {
    hide FromEmpty, ForeignKeys, HealthyRunsSince, Apply;
    var seen := OpenedAtZero();
    before := HealthySighting(seen, 1);
    before := HealthySighting(before, 2);
    last := DisappearStep(2, 36 * 3600);
    Extend(before, last);
    var inv := FromEmpty(before);
    TwoHealthyRuns(inv.runs);
    assert Sights(inv, inv.links[0], 1) && Sights(inv, inv.links[0], 2);
    RemovedExactlyOnEvidence(inv, last, 0);
  }

  /**
   * Every run's sightings are processed before its sweep, and each sweep comes before the next run is processed: still
   * a run that only closed too early counts against a link it saw.
   */
  lemma RemovedByOneMiss() returns (before: seq<Step>, last: Step)
    ensures
      var inv := FromEmpty(before);
      && last == DisappearStep(1, 36 * 3600) && |inv.links| == 1 && inv.links[0].status == LinkStatus.Active
      && (forall o :: 0 <= o < |inv.observations| && inv.observations[o].run != 2 ==>
            inv.links[0].latestObservation == o)
      && !SeenBy(inv, inv.links[0], 1) && SeenBy(inv, inv.links[0], 2)
    ensures |FromEmpty(before + [last]).links| >= 1 && FromEmpty(before + [last]).links[0].status == LinkStatus.Removed
  {
    hide FromEmpty, ForeignKeys, HealthyRunsSince, Apply;
    var seen := OpenedAtZero();
    before := HealthyRun(seen, 1);
    before := HealthySighting(before, 2);
    last := DisappearStep(1, 36 * 3600);
    Extend(before, last);
    var inv := FromEmpty(before);
    TwoHealthyRuns(inv.runs);
    assert Sights(inv, inv.links[0], 1);
    RemovedExactlyOnEvidence(inv, last, 0);
  }

  /** Another sighting of the only link there is refreshes it. */
  lemma SightedAgain(steps: seq<Step>, o: nat)
    requires o < |FromEmpty(steps).observations| && Usable(FromEmpty(steps).observations[o])
    requires |FromEmpty(steps).links| == 1 && Matches(FromEmpty(steps).links[0], FromEmpty(steps).observations[o])
    requires FromEmpty(steps).links[0].latestObservation != o
    ensures
      var inv := FromEmpty(steps);
      var r := FromEmpty(steps + [NormalizeStep(o, DiscoveryMethod.Direct, 0)]);
      && r.runs == inv.runs && r.observations == inv.observations
      && r.links == [TouchLink(inv.links[0], inv.observations[o], o)]
  {
    hide FromEmpty, ForeignKeys, Normalized, UpdateExisting, TouchLink, Matches, Usable;
    var inv := FromEmpty(steps);
    Extend(steps, NormalizeStep(o, DiscoveryMethod.Direct, 0));
    OnlyKnownLink(inv, o);
    NormalizedByCase(inv, o, DiscoveryMethod.Direct, 0);
    UpdateShape(inv, o, 0, 0);
  }

  lemma OnlyKnownLink(inv: Inventory, o: nat)
    requires o < |inv.observations| && Usable(inv.observations[o])
    requires |inv.links| == 1 && Matches(inv.links[0], inv.observations[o])
    ensures CaseOf(inv, o) == Updating(0)
  {
    hide Usable, Matches;
    WhereOne(inv.links, (l: Link) => Matches(l, inv.observations[o]));
    assert MatchingLinks(inv.links, inv.observations[o]) == [0];
  }

  /** A run swept after the next one was processed marks a link it saw, everything being processed. */
  lemma MissingThoughSeen() returns (stored: seq<Step>, before: seq<Step>, last: Step)
    ensures |FromEmpty(stored).observations| == 3 && last == DisappearStep(1, 3)
    ensures before == stored + [NormalizeStep(1, DiscoveryMethod.Direct, 0)]
                             + [NormalizeStep(2, DiscoveryMethod.Direct, 0)]
    ensures
      var inv := FromEmpty(before);
      |inv.links| == 1 && inv.links[0].status == LinkStatus.Active && SeenBy(inv, inv.links[0], 1)
    ensures |FromEmpty(before + [last]).links| >= 1 && FromEmpty(before + [last]).links[0].status == LinkStatus.Missing
  {
    hide FromEmpty, ForeignKeys, HealthyRunsSince, Apply;
    var start := OpenedAtZero();
    var first := HealthySighting(start, 1);
    stored := HealthySighting(first, 2);
    SightedAgain(stored, 1);
    var once := stored + [NormalizeStep(1, DiscoveryMethod.Direct, 0)];
    SightedAgain(once, 2);
    before := once + [NormalizeStep(2, DiscoveryMethod.Direct, 0)];
    last := DisappearStep(1, 3);
    Extend(before, last);
    var inv := FromEmpty(before);
    assert Sights(inv, inv.links[0], 1);
    DisappearApplies(inv, last);
    SweptStatus(inv, 1, 3, 0);
  }

  lemma TwoHealthyRuns(runs: seq<SourceRun>)
    requires runs == [SourceRun(0, 0, SourceRunStatus.Pending, None)]
      + [SourceRun(0, 1, SourceRunStatus.Healthy, Some(true))] + [SourceRun(0, 2, SourceRunStatus.Healthy, Some(true))]
    ensures HealthyRunsSince(runs, 0, 0) >= 2
  {
    var p := (r: SourceRun) => r.source == 0 && r.gatePassed == Some(true) && r.startedAt > 0;
    var two := [SourceRun(0, 1, SourceRunStatus.Healthy, Some(true))]
      + [SourceRun(0, 2, SourceRunStatus.Healthy, Some(true))];
    assert runs == [SourceRun(0, 0, SourceRunStatus.Pending, None)] + two;
    CountIfAppend([SourceRun(0, 0, SourceRunStatus.Pending, None)], two, p);
    assert two[..1] == [SourceRun(0, 1, SourceRunStatus.Healthy, Some(true))] && two[..1][..0] == [];
    assert CountIf(two, p) == CountIf(two[..1], p) + 1 == CountIf(two[..1][..0], p) + 1 + 1;
  }
}
