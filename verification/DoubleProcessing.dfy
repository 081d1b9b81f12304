/** Two workers on one observation: a lost lease does not stop its worker from committing, and when that does harm. */
module DoubleProcessing {
  import opened Prelude
  import opened Schema
  import opened JobQueue
  import opened Normalization
  import opened Engine
  import opened Worker
  import opened InterruptedWorker
  import opened Reprocessing
  import opened KnownLinks
  import L = LeaseProtocol

  /** The report of a worker's second transaction. */
  ghost function ReportStep(s: System, finish: WorkStep): L.Step
    requires ForeignKeys(s.inventory) && finish.Finish? && Allowed(s, finish)
  {
    var o := s.queue.jobs[finish.job].identity.inputHash;
    L.CompleteStep(
      finish.job, finish.token, ReportOf(ProcessObservation(s.inventory, o, finish.via, finish.now), finish.at))
  }

  /** Without the lease the report is refused and the queue stays as it is, but the processing is committed. */
  lemma LostLeaseStillCommits(s: System, finish: WorkStep)
    requires ForeignKeys(s.inventory) && finish.Finish? && Allowed(s, finish)
    requires s.queue.jobs[finish.job].leaseToken != Some(finish.token)
    ensures !L.AcceptedBy(s.queue, ReportStep(s, finish), finish.token)
    ensures Perform(s, finish).queue == s.queue
    ensures Perform(s, finish).inventory
         == Normalized(s.inventory, s.queue.jobs[finish.job].identity.inputHash, finish.via, finish.now)
  {
    hide ForeignKeys, ProcessObservation, Normalized;
  }

  /** Such a commit leaves the queue alone; it adds evidence at most if and only if it is harmless at that moment. */
  lemma LostCommitIff(s: System, late: WorkStep)
    requires ForeignKeys(s.inventory) && late.Finish? && Allowed(s, late)
    requires s.queue.jobs[late.job].leaseToken != Some(late.token)
    ensures
      var o := s.queue.jobs[late.job].identity.inputHash;
      var after := Perform(s, late);
      && after.queue == s.queue
      && (OnlyEvidence(s.inventory, after.inventory) <==> Harmless(s.inventory, o))
      && (after == s <==> Harmless(s.inventory, o) && !HasEvidence(s.inventory, o))
  {
    hide ForeignKeys, Perform, Normalized, Harmless, HasEvidence, OnlyEvidence;
    LostLeaseStillCommits(s, late);
    OnlyEvidenceIff(s.inventory, s.queue.jobs[late.job].identity.inputHash, late.via, late.now);
  }

  /** The work of everybody from one worker's commit to the late commit of another. */
  ghost predicate Interleaved(s: System, first: WorkStep, between: seq<WorkStep>, late: WorkStep)
    requires ForeignKeys(s.inventory)
  {
    && first.Finish? && late.Finish? && first.job == late.job && Allowed(s, first)
    && IsWork(Perform(s, first), between)
  }

  /**
   * A worker whose token is spent commits after the holder's commit, whatever queue and inventory work lies in between:
   * its report is refused, the queue stays as it is, and it adds evidence at most if and only if its observation is
   * harmless at that moment. It never opens or attaches anything once the holder processed the observation.
   */
  lemma LateCommitIff(s: System, first: WorkStep, between: seq<WorkStep>, late: WorkStep)
    requires ForeignKeys(s.inventory) && L.Invariant(s.queue) && Interleaved(s, first, between, late)
    requires L.Spent(s.queue, late.token)
    ensures late.job < |s.queue.jobs|
    ensures
      var o := s.queue.jobs[late.job].identity.inputHash;
      var before := Work(Perform(s, first), between);
      && Allowed(before, late) && !L.AcceptedBy(before.queue, ReportStep(before, late), late.token)
      && var after := Perform(before, late);
         && after.queue == before.queue
         && (OnlyEvidence(before.inventory, after.inventory) <==> Harmless(before.inventory, o))
         && (after == before <==> Harmless(before.inventory, o) && !HasEvidence(before.inventory, o))
         && (Processes(s.inventory, o) ==>
               CaseOf(before.inventory, o).Nothing? || CaseOf(before.inventory, o).Updating?)
  {
    hide ForeignKeys, Perform, Allowed, L.Invariant, L.Spent, L.AcceptedBy, IsWork, Work, Harmless, HasEvidence,
      OnlyEvidence, CaseOf, Processes, ReportStep;
    var before := Work(Perform(s, first), between);
    LateIsLost(s, first, between, late);
    LostLeaseStillCommits(before, late);
    LostCommitIff(before, late);
    if Processes(s.inventory, s.queue.jobs[late.job].identity.inputHash) {
      LateCreatesNothing(s, first, between, late);
    }
  }

  /** The job is still the one claimed, and not leased under the late token. */
  lemma LateIsLost(s: System, first: WorkStep, between: seq<WorkStep>, late: WorkStep)
    requires ForeignKeys(s.inventory) && L.Invariant(s.queue) && Interleaved(s, first, between, late)
    requires L.Spent(s.queue, late.token)
    ensures
      var before := Work(Perform(s, first), between);
      && late.Finish? && Allowed(before, late) && late.job < |s.queue.jobs| && late.job < |before.queue.jobs|
      && before.queue.jobs[late.job].identity == s.queue.jobs[late.job].identity
      && before.queue.jobs[late.job].leaseToken != Some(late.token)
  {
    hide ForeignKeys, Perform, L.Invariant, L.Spent, IsWork, Work;
    IdentityStays(s, first, first.job);
    IdentityStaysInRuns(Perform(s, first), between, first.job);
    OneWorkThen(s, first, between);
    WorksKeepSpent(s, [first] + between, late.token);
    SpentIsNotHeld(Work(s, [first] + between).queue, late.job, late.token);
  }

  lemma LateCreatesNothing(s: System, first: WorkStep, between: seq<WorkStep>, late: WorkStep)
    requires ForeignKeys(s.inventory) && Interleaved(s, first, between, late)
    requires first.job < |s.queue.jobs| && Processes(s.inventory, s.queue.jobs[first.job].identity.inputHash)
    ensures
      var c := CaseOf(Work(Perform(s, first), between).inventory, s.queue.jobs[first.job].identity.inputHash);
      c.Nothing? || c.Updating?
  {
    hide ForeignKeys, IsWork, Work, CaseOf, Processes, HasLink, Normalized, ProcessObservation, Complete;
    var o := s.queue.jobs[first.job].identity.inputHash;
    var next := Perform(s, first);
    ProcessedHasLink(s.inventory, o, first.via, first.now);
    WorkRunsSteps(next, between);
    RunKeepsLink(next.inventory, StepsOf(next, between), o);
    LinkedIsNotCreated(Work(next, between).inventory, o);
  }

  lemma OneWorkThen(s: System, first: WorkStep, works: seq<WorkStep>)
    requires ForeignKeys(s.inventory) && Allowed(s, first) && IsWork(Perform(s, first), works)
    ensures IsWork(s, [first] + works) && Work(s, [first] + works) == Work(Perform(s, first), works)
  {
    hide ForeignKeys, Perform, Allowed;
    assert ([first] + works)[1..] == works;
  }

  lemma SpentIsNotHeld(q: Queue, j: nat, token: Token)
    requires L.Spent(q, token) && j < |q.jobs|
    ensures q.jobs[j].leaseToken != Some(token)
  {
  }

  /**
   * With nothing in between the late commit is harmless: it adds evidence at most, and exactly when reprocessing does.
   */
  lemma SecondCommitAddsEvidence(s: System, first: WorkStep, second: WorkStep)
    requires ForeignKeys(s.inventory) && first.Finish? && second.Finish? && first.job == second.job
    requires Allowed(s, first) && s.queue.jobs[second.job].leaseToken != Some(second.token)
    ensures
      var once := Perform(s, first);
      && Allowed(once, second)
      && var twice := Perform(once, second);
         && twice.queue == once.queue
         && twice.inventory == once.inventory.(facts := twice.inventory.facts)
         && twice.inventory.facts.issues == once.inventory.facts.issues
         && twice.inventory.facts.overrides == once.inventory.facts.overrides
         && (twice == once <==> !AddsEvidenceAgain(s.inventory, s.queue.jobs[first.job].identity.inputHash))
  {
    hide ForeignKeys, ProcessObservation, Normalized, AddsEvidenceAgain, Harmless, HasEvidence;
    var o := s.queue.jobs[first.job].identity.inputHash;
    var once := Perform(s, first);
    IdentityStays(s, first, first.job);
    HarmlessOnceProcessed(s.inventory, o, first.via, first.now);
    LostCommitIff(once, second);
    LostLeaseStillCommits(once, second);
    ProcessingTwiceIsOnce(s.inventory, o, first.via, first.now, second.via, second.now);
  }

  // ---------------------------------------------------------------- how it comes about

  const FIRST_LEASE := Lease("a", 0, LEASE_SECONDS)
  const SECOND_LEASE := Lease("b", 301, LEASE_SECONDS)

  function TwoClaims(job: NewJob): seq<WorkStep> {
    [QueueWork(L.EnqueueStep(job, 0))] + [QueueWork(L.ClaimStep([0], [1], FIRST_LEASE, 1))]
    + [QueueWork(L.RecoverStep(301))] + [QueueWork(L.ClaimStep([0], [2], SECOND_LEASE, 1))]
  }

  /** Only tokens below this one were ever issued. */
  predicate IssuedBelow(q: Queue, bound: Token) {
    forall key :: key in q.attempts ==> q.attempts[key].leaseToken < bound
  }

  lemma OnlyClaim(q: Queue, token: Token, lease: Lease)
    requires |q.jobs| == 1 && Eligible(q.jobs[0], lease.now)
    requires forall key :: key in q.attempts ==> q.attempts[key].leaseToken != token
    ensures L.Enabled(q, L.ClaimStep([0], [token], lease, 1))
    ensures ClaimAll(q, [0], [token], lease) == ClaimOne(q, 0, token, lease)
  {
    assert [0][..0] == [] && [token][..0] == [];
  }

  /** The queue's side of it. */
  lemma LeasedTwice(job: NewJob)
    requires job.maxAttempts == 2 && job.nextAttemptAt == None
    ensures
      var q1 := Enqueue(EMPTY_QUEUE, job, 0);
      && |q1.jobs| == 1 && L.Enabled(q1, L.ClaimStep([0], [1], FIRST_LEASE, 1))
      && var q3 := RecoverExpiredLeases(ClaimAll(q1, [0], [1], FIRST_LEASE), 301);
         && |q3.jobs| == 1 && L.Enabled(q3, L.ClaimStep([0], [2], SECOND_LEASE, 1))
         && var q4 := ClaimAll(q3, [0], [2], SECOND_LEASE);
            && |q4.jobs| == 1 && q4.jobs[0].identity == job.identity && q4.jobs[0].leaseToken == Some(2)
            && IssuedBelow(q4, 3)
  {
    hide L.Enabled, ClaimAll;
    var q1 := Enqueue(EMPTY_QUEUE, job, 0);
    assert q1.jobs == [InsertedJob(job, 0)];
    OnlyClaim(q1, 1, FIRST_LEASE);
    OnlyClaim(RecoverExpiredLeases(ClaimAll(q1, [0], [1], FIRST_LEASE), 301), 2, SECOND_LEASE);
  }

  /** A job enqueued at 0, claimed, recovered when its lease had expired, and claimed by a second worker. */
  lemma ClaimedTwice(inv: Inventory, job: NewJob)
    requires ForeignKeys(inv) && job.maxAttempts == 2 && job.nextAttemptAt == None
    ensures IsWork(System(EMPTY_QUEUE, inv), TwoClaims(job))
    ensures
      var r := Work(System(EMPTY_QUEUE, inv), TwoClaims(job));
      && r.inventory == inv && |r.queue.jobs| == 1
      && r.queue.jobs[0].identity == job.identity && r.queue.jobs[0].leaseToken == Some(2)
      && IssuedBelow(r.queue, 3)
  {
    hide ForeignKeys, L.Enabled, ClaimAll, Enqueue, RecoverExpiredLeases, Heartbeat, Complete, IssuedBelow;
    var s := System(EMPTY_QUEUE, inv);
    LeasedTwice(job);
    var q2 := ClaimAll(Enqueue(EMPTY_QUEUE, job, 0), [0], [1], FIRST_LEASE);
    var enqueue, claim := QueueWork(L.EnqueueStep(job, 0)), QueueWork(L.ClaimStep([0], [1], FIRST_LEASE, 1));
    var recover, again := QueueWork(L.RecoverStep(301)), QueueWork(L.ClaimStep([0], [2], SECOND_LEASE, 1));
    assert L.Enabled(EMPTY_QUEUE, enqueue.queueStep) && L.Enabled(q2, recover.queueStep) by { Unclaimed(); }
    assert [] + [enqueue] == [enqueue];
    WorkSnoc(s, [], enqueue);
    WorkSnoc(s, [enqueue], claim);
    WorkSnoc(s, [enqueue] + [claim], recover);
    WorkSnoc(s, [enqueue] + [claim] + [recover], again);
  }

  lemma Unclaimed()
    ensures forall q, step: L.Step :: !step.ClaimStep? ==> L.Enabled(q, step)
  {
  }

  /**
   * From the empty queue and any inventory: after that the second worker finishes and is accepted, then the first one
   * is refused, and still its processing is committed.
   */
  lemma RecoveredWorkerCommits(inv: Inventory, job: NewJob, via: DiscoveryMethod, now: Time, at: Time)
    requires ForeignKeys(inv) && job.maxAttempts == 2 && job.nextAttemptAt == None && job.identity.jobType == Normalize
    ensures IsWork(System(EMPTY_QUEUE, inv), TwoClaims(job))
    ensures
      var s := Work(System(EMPTY_QUEUE, inv), TwoClaims(job));
      var holder, late := Finish(0, 2, via, now, at), Finish(0, 1, via, now, at);
      && Allowed(s, holder) && L.AcceptedBy(s.queue, ReportStep(s, holder), 2)
      && var once := Perform(s, holder);
         && Allowed(once, late) && !L.AcceptedBy(once.queue, ReportStep(once, late), 1)
         && once.inventory == Normalized(inv, job.identity.inputHash, via, now)
         && Perform(once, late).inventory == Normalized(once.inventory, job.identity.inputHash, via, now)
  {
    hide ForeignKeys, ProcessObservation, Normalized, IsWork, Work;
    ClaimedTwice(inv, job);
    var s := Work(System(EMPTY_QUEUE, inv), TwoClaims(job));
    var holder, late := Finish(0, 2, via, now, at), Finish(0, 1, via, now, at);
    var once := Perform(s, holder);
    LostLeaseStillCommits(once, late);
  }
}
