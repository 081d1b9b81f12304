/** A run of queue and inventory in which a worker that lost its lease sets an older rent, and no event says so. */
module LateCommitWitness {
  import opened Prelude
  import opened Schema
  import opened JobQueue
  import opened Normalization
  import opened Engine
  import opened Worker
  import opened Reachable
  import opened Sightings
  import opened StaleReplay
  import opened DoubleProcessing
  import L = LeaseProtocol

  // ---------------------------------------------------------------- inventory work alone

  function Lifted(steps: seq<Step>): seq<WorkStep> {
    seq(|steps|, n requires 0 <= n < |steps| => InventoryWork(steps[n]))
  }

  lemma {:induction false} LiftedRuns(s: System, steps: seq<Step>)
    requires ForeignKeys(s.inventory)
    ensures IsWork(s, Lifted(steps))
    ensures Work(s, Lifted(steps)) == System(s.queue, Run(s.inventory, steps))
    decreases |steps|
  {
    hide ForeignKeys, Apply;
    if steps != [] {
      ApplyKeepsKeys(s.inventory, steps[0]);
      assert Lifted(steps)[1..] == Lifted(steps[1..]);
      LiftedRuns(System(s.queue, Apply(s.inventory, steps[0])), steps[1..]);
    }
  }

  // ---------------------------------------------------------------- the queue's side

  /** A normalization job for observation `o` with two attempts. */
  function JobFor(o: nat): NewJob {
    NewJob(JobIdentity(Normalize, None, o, "v"), None, 0, 2, None)
  }

  const THIRD_LEASE := Lease("b", 303, LEASE_SECONDS)

  /** The second worker goes on to the next job. */
  const NEXT_CLAIM := L.ClaimStep([1], [3], THIRD_LEASE, 1)

  lemma NextJob(q: Queue)
    requires |q.jobs| == 1 && q.jobs[0].identity == JobFor(1).identity && q.jobs[0].leaseToken == None
    requires IssuedBelow(q, 3)
    ensures
      var q1 := Enqueue(q, JobFor(2), 303);
      && |q1.jobs| == 2 && L.Enabled(q1, NEXT_CLAIM)
      && var q2 := ClaimAll(q1, [1], [3], THIRD_LEASE);
         && |q2.jobs| == 2 && q2.jobs[0] == q.jobs[0]
         && q2.jobs[1].identity == JobFor(2).identity && q2.jobs[1].leaseToken == Some(3)
  {
    hide ClaimAll;
    var q1 := Enqueue(q, JobFor(2), 303);
    assert q1.jobs == q.jobs + [InsertedJob(JobFor(2), 303)];
    assert Eligible(q1.jobs[1], 303);
    L.ClaimAllEffect(q1, [1], [3], THIRD_LEASE);
    assert [1][0] == 1 && [3][0] == 3 && 0 !in [1];
  }

  /** What the finish of job `j` under its own token leaves of the queue. */
  lemma Finished(q: Queue, j: nat, token: Token, report: Report)
    requires j < |q.jobs| && q.jobs[j].leaseToken == Some(token) && IsCompletion(report.status)
    ensures
      var r := Complete(q, j, token, report);
      && |r.jobs| == |q.jobs| && r.jobs[j].leaseToken == None && r.jobs[j].identity == q.jobs[j].identity
      && (forall i :: 0 <= i < |q.jobs| && i != j ==> r.jobs[i] == q.jobs[i])
      && (forall bound: Token :: IssuedBelow(q, bound) ==> IssuedBelow(r, bound))
  {
  }

  /** The finish of a leased job: the queue as above, the inventory with the observation processed. */
  lemma Settles(s: System, j: nat, token: Token, at: Time)
    requires ForeignKeys(s.inventory) && j < |s.queue.jobs| && s.queue.jobs[j].leaseToken == Some(token)
    requires s.queue.jobs[j].identity.jobType == Normalize
    ensures
      var r := Perform(s, FinishAt(j, token, at));
      && r.inventory == Processed(s.inventory, s.queue.jobs[j].identity.inputHash)
      && |r.queue.jobs| == |s.queue.jobs|
      && r.queue.jobs[j].leaseToken == None && r.queue.jobs[j].identity == s.queue.jobs[j].identity
      && (forall i :: 0 <= i < |s.queue.jobs| && i != j ==> r.queue.jobs[i] == s.queue.jobs[i])
      && (forall bound: Token :: IssuedBelow(s.queue, bound) ==> IssuedBelow(r.queue, bound))
  {
    hide ForeignKeys, ProcessObservation, Normalized, Complete, IssuedBelow;
    var o := s.queue.jobs[j].identity.inputHash;
    Finished(s.queue, j, token, ReportOf(ProcessObservation(s.inventory, o, DiscoveryMethod.Direct, 0), at));
  }

  function FinishAt(j: nat, token: Token, at: Time): WorkStep {
    Finish(j, token, DiscoveryMethod.Direct, 0, at)
  }

  // ---------------------------------------------------------------- the run

  /** After some inventory work: the two claims of one job, its finish, and the next job enqueued, claimed, finished. */
  function WholeRun(steps: seq<Step>): seq<WorkStep> {
    Lifted(steps) + TwoClaims(JobFor(1)) + [FinishAt(0, 2, 302)]
    + [QueueWork(L.EnqueueStep(JobFor(2), 303))] + [QueueWork(NEXT_CLAIM)] + [FinishAt(1, 3, 304)]
  }

  /** The listing is open; the job for its second observation was claimed, recovered and claimed again. */
  lemma ReachTwoClaims() returns (steps: seq<Step>)
    ensures ForeignKeys(EMPTY_INVENTORY) && ForeignKeys(Start())
    ensures IsWork(EMPTY_SYSTEM, Lifted(steps) + TwoClaims(JobFor(1)))
    ensures
      var s := Work(EMPTY_SYSTEM, Lifted(steps) + TwoClaims(JobFor(1)));
      && s.inventory == Processed(Start(), 0)
      && |s.queue.jobs| == 1 && s.queue.jobs[0].identity == JobFor(1).identity
      && s.queue.jobs[0].leaseToken == Some(2) && IssuedBelow(s.queue, 3)
  {
    hide ForeignKeys, FromEmpty, Processed, IsWork, Work, IssuedBelow;
    EmptyIsSound();
    var stored := Stored();
    steps := ProcessNext(stored, 0);
    LiftedRuns(EMPTY_SYSTEM, steps);
    ClaimedTwice(FromEmpty(steps), JobFor(1));
    assert FromEmpty(steps) == Run(EMPTY_INVENTORY, steps) by { RunFromEmpty(steps); }
    WorkConcat(EMPTY_SYSTEM, Lifted(steps), TwoClaims(JobFor(1)));
  }

  lemma RunFromEmpty(steps: seq<Step>)
    ensures ForeignKeys(EMPTY_INVENTORY) && FromEmpty(steps) == Run(EMPTY_INVENTORY, steps)
  {
    EmptyIsSound();
  }

  /** The second worker settles that job, claims the next one, and settles it: the rent is the third observation's. */
  lemma ReachThirdRent() returns (steps: seq<Step>)
    ensures ForeignKeys(EMPTY_INVENTORY) && ForeignKeys(Start()) && ForeignKeys(Processed(Start(), 0))
    ensures ForeignKeys(Processed(Processed(Start(), 0), 1)) && IsWork(EMPTY_SYSTEM, WholeRun(steps))
    ensures
      var s := Work(EMPTY_SYSTEM, WholeRun(steps));
      && s.inventory == Processed(Processed(Processed(Start(), 0), 1), 2)
      && |s.queue.jobs| == 2 && s.queue.jobs[0].identity == JobFor(1).identity && s.queue.jobs[0].leaseToken == None
  {
    hide ForeignKeys, Processed, IsWork, Work, IssuedBelow, Enqueue, ClaimAll, Perform, L.Enabled, Lifted, TwoClaims;
    steps := ReachTwoClaims();
    var claimed := Lifted(steps) + TwoClaims(JobFor(1));
    var s2 := Work(EMPTY_SYSTEM, claimed);
    var holder := FinishAt(0, 2, 302);
    WorkSnoc(EMPTY_SYSTEM, claimed, holder);
    Settles(s2, 0, 2, 302);
    var s3 := Perform(s2, holder);
    var settled := claimed + [holder];
    ClaimsNext(s3);
    var enqueue, claim := QueueWork(L.EnqueueStep(JobFor(2), 303)), QueueWork(NEXT_CLAIM);
    WorkSnoc(EMPTY_SYSTEM, settled, enqueue);
    var s4 := Perform(s3, enqueue);
    WorkSnoc(EMPTY_SYSTEM, settled + [enqueue], claim);
    var s5 := Perform(s4, claim);
    var next := FinishAt(1, 3, 304);
    WorkSnoc(EMPTY_SYSTEM, settled + [enqueue] + [claim], next);
    Settles(s5, 1, 3, 304);
  }

  lemma ClaimsNext(s: System)
    requires ForeignKeys(s.inventory) && |s.queue.jobs| == 1 && s.queue.jobs[0].identity == JobFor(1).identity
    requires s.queue.jobs[0].leaseToken == None && IssuedBelow(s.queue, 3)
    ensures
      var enqueue, claim := QueueWork(L.EnqueueStep(JobFor(2), 303)), QueueWork(NEXT_CLAIM);
      && Allowed(s, enqueue)
      && var s4 := Perform(s, enqueue);
         && Allowed(s4, claim)
         && var s5 := Perform(s4, claim);
            && s5.inventory == s.inventory && |s5.queue.jobs| == 2 && s5.queue.jobs[0] == s.queue.jobs[0]
            && s5.queue.jobs[1].identity == JobFor(2).identity && s5.queue.jobs[1].leaseToken == Some(3)
  {
    hide ForeignKeys, ClaimAll, Enqueue;
    NextJob(s.queue);
  }

  /**
   * From the empty queue and database: the worker that lost the lease of the second observation commits after the third
   * was processed. Its report is refused, the rent goes back from 300 to 200, and no event is written.
   */
  lemma LateCommitSetsOldRent() returns (steps: seq<Step>)
    ensures ForeignKeys(EMPTY_INVENTORY) && IsWork(EMPTY_SYSTEM, WholeRun(steps))
    ensures
      var s := Work(EMPTY_SYSTEM, WholeRun(steps));
      var late := FinishAt(0, 1, 305);
      && Allowed(s, late) && !L.AcceptedBy(s.queue, ReportStep(s, late), 1)
      && |s.inventory.listings| == 1 && s.inventory.listings[0].rent == Some(300)
      && var after := Perform(s, late);
         && after.queue == s.queue && after.inventory.events == s.inventory.events
         && |after.inventory.listings| == 1 && after.inventory.listings[0].rent == Some(200)
  {
    hide ForeignKeys, Processed, IsWork, Work, Perform, WholeRun, Allowed, L.AcceptedBy;
    steps := ReachThirdRent();
    var c := AfterThree();
    CommitsAll(Work(EMPTY_SYSTEM, WholeRun(steps)), 0, 1, 305);
  }

  /** The finish of a job leased to nobody: refused, and committed. */
  lemma CommitsAll(s: System, j: nat, token: Token, at: Time)
    requires ForeignKeys(s.inventory) && j < |s.queue.jobs| && s.queue.jobs[j].leaseToken == None
    requires s.queue.jobs[j].identity.jobType == Normalize
    ensures Allowed(s, FinishAt(j, token, at))
    ensures !L.AcceptedBy(s.queue, ReportStep(s, FinishAt(j, token, at)), token)
    ensures Perform(s, FinishAt(j, token, at)).queue == s.queue
    ensures Perform(s, FinishAt(j, token, at)).inventory
         == Processed(s.inventory, s.queue.jobs[j].identity.inputHash)
  {
    hide ForeignKeys, Normalized;
    LostLeaseStillCommits(s, FinishAt(j, token, at));
  }
}
