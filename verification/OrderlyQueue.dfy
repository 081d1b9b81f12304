/** Absence is real over queue and inventory together, under a discipline read off the tables alone. */
module OrderlyQueue {
  import opened Prelude
  import opened Schema
  import opened JobQueue
  import opened Normalization
  import opened Engine
  import opened Disappearance
  import opened KnownLinks
  import opened RealAbsence
  import opened Worker

  /** Some NORMALIZE job of the observation has SUCCEEDED. */
  ghost predicate HasSucceeded(q: Queue, o: nat) {
    exists j: nat :: Done(q, j) && q.jobs[j].identity.inputHash == o
  }

  /** Every usable observation of the source made in a gate-passed run has a SUCCEEDED job. */
  ghost predicate AllSucceeded(s: System, source: nat)
    requires ForeignKeys(s.inventory)
  {
    var inv := s.inventory;
    forall o: nat | o < |inv.observations| && Usable(inv.observations[o]) && inv.observations[o].source == source ::
      inv.runs[inv.observations[o].run].gatePassed == Some(true) ==> HasSucceeded(s.queue, o)
  }

  /** An observation that opens a link is not older than a run with a stored sighting of that link that has a link. */
  ghost predicate OpensLast(inv: Inventory, p: nat)
    requires ForeignKeys(inv)
  {
    p < |inv.observations| && !HasLink(inv, p) ==>
      forall o: nat :: Sights(inv, LinkOpenedBy(inv, p), o) && HasLink(inv, o) ==>
        RunStart(inv, o) <= inv.observations[p].observedAt
  }

  /** The discipline of `Orderly`, with the job table in place of what was processed. */
  ghost predicate OrderlyStep(s: System, step: Step)
    requires ForeignKeys(s.inventory)
  {
    var inv := s.inventory;
    match step
    case Observe(row) => row.run < |inv.runs| ==> inv.runs[row.run].startedAt <= row.observedAt
    case NormalizeStep(p, _, _) => OpensLast(inv, p)
    case DisappearStep(run, _) => GateOpen(inv.runs, run) ==>
      AllSucceeded(s, inv.runs[run].source) && NothingNewer(inv, run)
    case _ => true
  }

  ghost predicate OrderlyWork(s: System, works: seq<WorkStep>)
    requires ForeignKeys(s.inventory) && IsWork(s, works)
    decreases |works|
  {
    works == []
    || ((StepOf(s, works[0]) != [] ==> OrderlyStep(s, StepOf(s, works[0])[0]))
        && OrderlyWork(Perform(s, works[0]), works[1..]))
  }

  // ---------------------------------------------------------------- what the tables say of the past

  /** What has SUCCEEDED was processed, and what was processed has a link. */
  ghost predicate Recorded(s: System, done: set<nat>) {
    && (forall j: nat :: Done(s.queue, j) ==> SuccessRecorded(s, j, done))
    && (forall o :: o in done ==> HasLink(s.inventory, o))
  }

  predicate SuccessRecorded(s: System, j: nat, done: set<nat>)
    requires Done(s.queue, j)
  {
    var o := s.queue.jobs[j].identity.inputHash;
    o < |s.inventory.observations| && (Usable(s.inventory.observations[o]) ==> o in done)
  }

  lemma RecordedCatchesUp(s: System, done: set<nat>, source: nat)
    requires ForeignKeys(s.inventory) && Recorded(s, done) && AllSucceeded(s, source)
    ensures CaughtUp(s.inventory, done, source)
  {
    hide ForeignKeys;
    var inv := s.inventory;
    forall o: nat | o < |inv.observations| && Usable(inv.observations[o]) && inv.observations[o].source == source
      && HasSucceeded(s.queue, o)
      ensures o in done
    {
      var j: nat :| Done(s.queue, j) && s.queue.jobs[j].identity.inputHash == o;
      assert SuccessRecorded(s, j, done);
    }
  }

  lemma RecordedIsOrderly(s: System, done: set<nat>, step: Step)
    requires ForeignKeys(s.inventory) && Recorded(s, done) && OrderlyStep(s, step)
    ensures Orderly(s.inventory, done, step)
  {
    hide ForeignKeys, Recorded, AllSucceeded, CaughtUp, NothingNewer, HasLink, Sights, Matches;
    match step
    case DisappearStep(run, _) =>
      if GateOpen(s.inventory.runs, run) {
        RecordedCatchesUp(s, done, s.inventory.runs[run].source);
      }
    case NormalizeStep(p, _, _) =>
      assert forall o :: o in done ==> HasLink(s.inventory, o) by { LinksRecorded(s, done); }
      if p < |s.inventory.observations| && HasLink(s.inventory, p) {
        LinkMatches(s.inventory, p);
      }
    case _ =>
  }

  lemma LinksRecorded(s: System, done: set<nat>)
    requires Recorded(s, done)
    ensures forall o :: o in done ==> HasLink(s.inventory, o)
  {
  }

  lemma LinkMatches(inv: Inventory, p: nat)
    requires HasLink(inv, p)
    ensures p < |inv.observations| && exists k :: 0 <= k < |inv.links| && Matches(inv.links[k], inv.observations[p])
  {
    var k: nat :| k < |inv.links| && Matches(inv.links[k], inv.observations[p]);
  }

  lemma ObservationsStay(inv: Inventory, step: Step)
    requires ForeignKeys(inv)
    ensures inv.observations <= Apply(inv, step).observations
  {
    hide ForeignKeys, Apply, Normalized;
    if step.NormalizeStep? {
      NormalizeApplies(inv, step);
      NormalizeAgesLinks(inv, step.observation, step.via, step.now);
    } else {
      OtherStepSightings(inv, step);
    }
  }

  /** The inventory after some work, and what was processed by then, as one step of `RealAbsence` has it. */
  lemma OneStep(s: System, work: WorkStep, done: set<nat>)
    requires ForeignKeys(s.inventory) && Allowed(s, work)
    ensures StepOf(s, work) == [] ==>
              Perform(s, work).inventory == s.inventory && DoneBy(s.inventory, done, StepOf(s, work)) == done
    ensures StepOf(s, work) != [] ==>
              var step := StepOf(s, work)[0];
              && StepOf(s, work) == [step] && Perform(s, work).inventory == Apply(s.inventory, step)
              && DoneBy(s.inventory, done, [step]) == DoneAfter(s.inventory, done, step)
  {
    hide ForeignKeys, Perform, Apply, DoneAfter;
    PerformRunsStep(s, work);
    if StepOf(s, work) != [] {
      ApplyKeepsKeys(s.inventory, StepOf(s, work)[0]);
      assert StepOf(s, work)[1..] == [];
    }
  }

  lemma WorkKeepsRecorded(s: System, work: WorkStep, done: set<nat>)
    requires ForeignKeys(s.inventory) && Allowed(s, work) && Recorded(s, done)
    ensures Recorded(Perform(s, work), DoneBy(s.inventory, done, StepOf(s, work)))
  {
    hide ForeignKeys, Perform, Apply, Done, HasLink, DoneAfter, DoneBy, Processes, SuccessRecorded;
    var r := Perform(s, work);
    var after := DoneBy(s.inventory, done, StepOf(s, work));
    OneStep(s, work, done);
    forall j: nat | Done(r.queue, j) ensures SuccessRecorded(r, j, after) {
      SuccessStaysRecorded(s, work, j, done);
    }
    forall o | o in after ensures HasLink(r.inventory, o) {
      LinkStaysRecorded(s, work, o, done);
    }
  }

  lemma SuccessStaysRecorded(s: System, work: WorkStep, j: nat, done: set<nat>)
    requires ForeignKeys(s.inventory) && Allowed(s, work) && Recorded(s, done) && Done(Perform(s, work).queue, j)
    ensures SuccessRecorded(Perform(s, work), j, DoneBy(s.inventory, done, StepOf(s, work)))
  {
    hide ForeignKeys, Perform, Apply, DoneBy, Normalized, ProcessObservation, Processes;
    OneStep(s, work, done);
    if StepOf(s, work) != [] {
      ObservationsStay(s.inventory, StepOf(s, work)[0]);
    }
    if Done(s.queue, j) {
      assert SuccessRecorded(s, j, done);
      IdentityStays(s, work, j);
    } else {
      OneStepToDone(s, work, j);
      var o := s.queue.jobs[j].identity.inputHash;
      SuccessExists(s.inventory, o, work.via, work.now);
      if Usable(s.inventory.observations[o]) {
        SuccessIsSuccess(s.inventory, o, work.via, work.now);
      }
    }
  }

  lemma SuccessExists(inv: Inventory, o: nat, via: DiscoveryMethod, now: Time)
    requires ForeignKeys(inv) && ProcessObservation(inv, o, via, now).Success?
    ensures o < |inv.observations|
  {
    hide ForeignKeys, CreateCanonical, UpdateExisting, MatchingLinks;
  }

  lemma LinkStaysRecorded(s: System, work: WorkStep, o: nat, done: set<nat>)
    requires ForeignKeys(s.inventory) && Allowed(s, work) && Recorded(s, done)
    requires o in DoneBy(s.inventory, done, StepOf(s, work))
    ensures HasLink(Perform(s, work).inventory, o)
  {
    hide ForeignKeys, Perform, Apply, DoneBy, HasLink, Processes, Done, Normalized;
    OneStep(s, work, done);
    if StepOf(s, work) != [] {
      var step := StepOf(s, work)[0];
      if o in done {
        StepKeepsLink(s.inventory, step, o);
      } else {
        NormalizeApplies(s.inventory, step);
        ProcessedHasLink(s.inventory, o, step.via, step.now);
      }
    }
  }

  // ---------------------------------------------------------------- whole runs

  /** Work in this order is an orderly run of the inventory. */
  lemma {:induction false} OrderlyWorkIsOrderly(s: System, works: seq<WorkStep>, done: set<nat>)
    requires ForeignKeys(s.inventory) && IsWork(s, works) && OrderlyWork(s, works) && Recorded(s, done)
    ensures OrderlyRun(s.inventory, done, StepsOf(s, works))
    ensures Recorded(Work(s, works), DoneBy(s.inventory, done, StepsOf(s, works)))
    decreases |works|
  {
    hide ForeignKeys, Perform, Allowed, Apply, Orderly, DoneAfter, Recorded, OrderlyStep, StepOf;
    if works != [] {
      var next := Perform(s, works[0]);
      var first := StepOf(s, works[0]);
      OneStep(s, works[0], done);
      WorkKeepsRecorded(s, works[0], done);
      var later := DoneBy(s.inventory, done, first);
      OrderlyWorkIsOrderly(next, works[1..], later);
      if first == [] {
        assert StepsOf(s, works) == StepsOf(next, works[1..]);
      } else {
        RecordedIsOrderly(s, done, first[0]);
        assert StepsOf(s, works)[1..] == StepsOf(next, works[1..]);
      }
    }
  }

  lemma NothingIsRecorded()
    ensures ForeignKeys(EMPTY_INVENTORY) && Recorded(EMPTY_SYSTEM, {})
  {
  }

  /**
   * From the empty queue and database, after any orderly work of workers, recoveries and services: when the jobs of the
   * gate-passed runs have SUCCEEDED and no link points beyond the run, its sweep judges every link by what its runs
   * really saw, and the run itself is among the misses of a link it did not see.
   */
  lemma SweepAfterQueueIsReal(works: seq<WorkStep>, run: nat, now: Time, k: nat)
    requires ForeignKeys(EMPTY_INVENTORY) && IsWork(EMPTY_SYSTEM, works) && OrderlyWork(EMPTY_SYSTEM, works)
    requires
      var s := Work(EMPTY_SYSTEM, works);
      && GateOpen(s.inventory.runs, run) && Judged(s.inventory, run, k)
      && AllSucceeded(s, s.inventory.runs[run].source) && NothingNewer(s.inventory, run)
    ensures
      var inv := Work(EMPTY_SYSTEM, works).inventory;
      && k < |ProcessSourceRun(inv, run, now).links|
      && ProcessSourceRun(inv, run, now).links[k].status == Verdict(inv, run, now, inv.links[k])
      && (!SeenBy(inv, inv.links[k], run) ==> run in Misses(inv, inv.links[k]))
  {
    hide ForeignKeys, IsWork, Work, Recorded, Tracked, CaughtUp, NothingNewer, AllSucceeded, ProcessSourceRun, Verdict,
      Misses, SeenBy, OrderlyWork, OrderlyRun;
    EmptyIsTracked();
    NothingIsRecorded();
    var s := Work(EMPTY_SYSTEM, works);
    var done := DoneBy(EMPTY_INVENTORY, {}, StepsOf(EMPTY_SYSTEM, works));
    OrderlyWorkIsOrderly(EMPTY_SYSTEM, works, {});
    WorkRunsSteps(EMPTY_SYSTEM, works);
    RunKeepsTracked(EMPTY_INVENTORY, {}, StepsOf(EMPTY_SYSTEM, works));
    RecordedCatchesUp(s, done, s.inventory.runs[run].source);
    SweepIsReal(s.inventory, done, run, now, k);
  }
}
