/** The normalization worker: it turns leased jobs into inventory transactions, and succeeds only by processing. */
module Worker {
  import opened Prelude
  import opened Schema
  import opened JobQueue
  import opened Normalization
  import opened Normalizer
  import opened Engine
  import L = LeaseProtocol

  const RETRY_DELAY_SECONDS := 60
  const LEASE_SECONDS := 300

  // ---------------------------------------------------------------- queue and inventory together

  datatype System = System(queue: Queue, inventory: Inventory)

  const EMPTY_SYSTEM := System(EMPTY_QUEUE, EMPTY_INVENTORY)

  /** What any process may do: queue transactions, other inventory transactions, or a worker's second transaction. */
  datatype WorkStep =
    | QueueWork(queueStep: L.Step)
    | InventoryWork(step: Engine.Step)
    | Finish(job: nat, token: Token, via: DiscoveryMethod, now: Time, at: Time)

  /** Reports of success on NORMALIZE jobs come from the worker loop only. */
  predicate ClaimsSuccess(q: Queue, step: L.Step) {
    && step.CompleteStep? && step.report.status == JobStatus.Succeeded
    && step.id < |q.jobs| && q.jobs[step.id].identity.jobType == Normalize
  }

  ghost predicate Allowed(s: System, work: WorkStep) {
    match work
    case QueueWork(step) => L.Enabled(s.queue, step) && !ClaimsSuccess(s.queue, step)
    case InventoryWork(_) => true
    case Finish(job, _, _, _, _) => job < |s.queue.jobs| && s.queue.jobs[job].identity.jobType == Normalize
  }

  function ErrorName(error: Error): string {
    match error
    case RowNotFound => "LookupError"
    case MultipleRows => "MultipleResultsFound"
    case Rejected => "MergeError"
    case HumanRequired => "HumanActionRequired"
    case NotACompletion => "ValueError"
  }

  function ReportOf(r: Result<Effect>, at: Time): Report {
    if r.Success? then Report(JobStatus.Succeeded, None, at, RETRY_DELAY_SECONDS)
    else Report(FailedRetryable, Some(ErrorName(r.error)), at, RETRY_DELAY_SECONDS)
  }

  /** The worker's second transaction commits its effects whether or not the lease is still good. */
  ghost function Perform(s: System, work: WorkStep): (r: System)
    requires ForeignKeys(s.inventory) && Allowed(s, work)
    ensures ForeignKeys(r.inventory)
  {
    match work
    case QueueWork(step) => s.(queue := L.Apply(s.queue, step))
    case InventoryWork(step) =>
      ApplyKeepsKeys(s.inventory, step);
      s.(inventory := Engine.Apply(s.inventory, step))
    case Finish(job, token, via, now, at) =>
      var o := s.queue.jobs[job].identity.inputHash;
      NormalizedKeepsKeys(s.inventory, o, via, now);
      System(Complete(s.queue, job, token, ReportOf(ProcessObservation(s.inventory, o, via, now), at)),
             Normalized(s.inventory, o, via, now))
  }

  ghost predicate IsWork(s: System, works: seq<WorkStep>)
    requires ForeignKeys(s.inventory)
    decreases |works|
  {
    works == [] || (Allowed(s, works[0]) && IsWork(Perform(s, works[0]), works[1..]))
  }

  ghost function Work(s: System, works: seq<WorkStep>): (r: System)
    requires ForeignKeys(s.inventory) && IsWork(s, works)
    ensures ForeignKeys(r.inventory)
    decreases |works|
  {
    if works == [] then s else Work(Perform(s, works[0]), works[1..])
  }

  lemma {:induction false} WorkSnoc(s: System, works: seq<WorkStep>, work: WorkStep)
    requires ForeignKeys(s.inventory) && IsWork(s, works) && Allowed(Work(s, works), work)
    ensures IsWork(s, works + [work]) && Work(s, works + [work]) == Perform(Work(s, works), work)
    decreases |works|
  {
    hide Allowed, Perform, ForeignKeys;
    if works == [] {
      assert ([] + [work])[1..] == [];
    } else {
      assert (works + [work])[1..] == works[1..] + [work];
      WorkSnoc(Perform(s, works[0]), works[1..], work);
    }
  }

  lemma {:induction false} WorkConcat(s: System, first: seq<WorkStep>, second: seq<WorkStep>)
    requires ForeignKeys(s.inventory) && IsWork(s, first) && IsWork(Work(s, first), second)
    ensures IsWork(s, first + second) && Work(s, first + second) == Work(Work(s, first), second)
    decreases |first|
  {
    hide Allowed, Perform, ForeignKeys;
    if first == [] {
      assert first + second == second;
    } else {
      assert (first + second)[1..] == first[1..] + second;
      WorkConcat(Perform(s, first[0]), first[1..], second);
    }
  }

  // ---------------------------------------------------------------- the inventory's side of it

  /** The inventory transactions among some work, in order; a worker's second transaction is one. */
  ghost function StepsOf(s: System, works: seq<WorkStep>): seq<Engine.Step>
    requires ForeignKeys(s.inventory) && IsWork(s, works)
    decreases |works|
  {
    if works == [] then []
    else StepOf(s, works[0]) + StepsOf(Perform(s, works[0]), works[1..])
  }

  ghost function StepOf(s: System, work: WorkStep): seq<Engine.Step>
    requires ForeignKeys(s.inventory) && Allowed(s, work)
  {
    match work
    case QueueWork(_) => []
    case InventoryWork(step) => [step]
    case Finish(job, _, via, now, _) => [NormalizeStep(s.queue.jobs[job].identity.inputHash, via, now)]
  }

  lemma PerformRunsStep(s: System, work: WorkStep)
    requires ForeignKeys(s.inventory) && Allowed(s, work)
    ensures Perform(s, work).inventory == Engine.Run(s.inventory, StepOf(s, work))
  {
    hide ForeignKeys, Normalized, Engine.Apply, ProcessObservation;
    var steps := StepOf(s, work);
    if steps != [] {
      ApplyKeepsKeys(s.inventory, steps[0]);
      assert steps[1..] == [];
      if work.Finish? {
        NormalizeApplies(s.inventory, steps[0]);
      }
    }
  }

  /** Whatever the queue does, the inventory goes through a run of its own state machine. */
  lemma {:induction false} WorkRunsSteps(s: System, works: seq<WorkStep>)
    requires ForeignKeys(s.inventory) && IsWork(s, works)
    ensures Work(s, works).inventory == Engine.Run(s.inventory, StepsOf(s, works))
    decreases |works|
  {
    hide ForeignKeys, Perform, Allowed, StepOf;
    if works != [] {
      var next := Perform(s, works[0]);
      PerformRunsStep(s, works[0]);
      WorkRunsSteps(next, works[1..]);
      RunConcat(s.inventory, StepOf(s, works[0]), StepsOf(next, works[1..]));
    }
  }

  // ---------------------------------------------------------------- success means processed

  /** Some worker's second transaction processed observation `o` without an error. */
  ghost predicate EverProcessed(s: System, works: seq<WorkStep>, o: nat)
    requires ForeignKeys(s.inventory) && IsWork(s, works)
    decreases |works|
  {
    && works != []
    && ((works[0].Finish?
         && s.queue.jobs[works[0].job].identity.inputHash == o
         && ProcessObservation(s.inventory, o, works[0].via, works[0].now).Success?)
        || EverProcessed(Perform(s, works[0]), works[1..], o))
  }

  predicate Done(q: Queue, j: nat) {
    j < |q.jobs| && q.jobs[j].identity.jobType == Normalize && q.jobs[j].status == JobStatus.Succeeded
  }

  lemma OneStepToDone(s: System, work: WorkStep, j: nat)
    requires ForeignKeys(s.inventory) && Allowed(s, work) && !Done(s.queue, j) && Done(Perform(s, work).queue, j)
    ensures work.Finish? && work.job == j && j < |s.queue.jobs|
    ensures Perform(s, work).queue.jobs[j].identity == s.queue.jobs[j].identity
    ensures ProcessObservation(s.inventory, s.queue.jobs[j].identity.inputHash, work.via, work.now).Success?
  {
    hide ProcessObservation, Normalized, ForeignKeys;
    if work.QueueWork? && work.queueStep.ClaimStep? {
      L.ClaimAllEffect(s.queue, work.queueStep.ids, work.queueStep.tokens, work.queueStep.lease);
    }
  }

  lemma IdentityStays(s: System, work: WorkStep, j: nat)
    requires ForeignKeys(s.inventory) && Allowed(s, work) && j < |s.queue.jobs|
    ensures j < |Perform(s, work).queue.jobs|
    ensures Perform(s, work).queue.jobs[j].identity == s.queue.jobs[j].identity
  {
    hide ProcessObservation, Normalized, ForeignKeys;
    if work.QueueWork? && work.queueStep.ClaimStep? {
      L.ClaimAllEffect(s.queue, work.queueStep.ids, work.queueStep.tokens, work.queueStep.lease);
    }
  }

  lemma {:induction false} IdentityStaysInRuns(s: System, works: seq<WorkStep>, j: nat)
    requires ForeignKeys(s.inventory) && IsWork(s, works) && j < |s.queue.jobs|
    ensures j < |Work(s, works).queue.jobs|
    ensures Work(s, works).queue.jobs[j].identity == s.queue.jobs[j].identity
    decreases |works|
  {
    hide Allowed, Perform, ForeignKeys;
    if works != [] {
      IdentityStays(s, works[0], j);
      IdentityStaysInRuns(Perform(s, works[0]), works[1..], j);
    }
  }

  /**
   * Over every interleaving of workers, lease recoveries and other services: a NORMALIZE job that came to be SUCCEEDED
   * had its observation processed without an error by some worker.
   */
  lemma {:induction false} SucceededMeansProcessed(s: System, works: seq<WorkStep>, j: nat)
    requires ForeignKeys(s.inventory) && IsWork(s, works)
    requires !Done(s.queue, j) && Done(Work(s, works).queue, j)
    ensures EverProcessed(s, works, Work(s, works).queue.jobs[j].identity.inputHash)
    decreases |works|
  {
    hide Allowed, Perform, ForeignKeys, ProcessObservation, Done;
    if works == [] {
      assert false;
    } else {
      var next := Perform(s, works[0]);
      if Done(next.queue, j) {
        OneStepToDone(s, works[0], j);
        IdentityStaysInRuns(next, works[1..], j) by { DoneExists(next.queue, j); }
      } else {
        SucceededMeansProcessed(next, works[1..], j);
      }
    }
  }

  lemma DoneExists(q: Queue, j: nat)
    requires Done(q, j)
    ensures j < |q.jobs|
  {
  }

  // ---------------------------------------------------------------- the worker loop

  /** No job is leased under one of these tokens. */
  predicate NoneHeld(q: Queue, tokens: seq<Token>) {
    forall j :: 0 <= j < |q.jobs| && q.jobs[j].leaseToken.Some? ==> q.jobs[j].leaseToken.value !in tokens
  }

  predicate NoNormalizeHeld(q: Queue, tokens: seq<Token>) {
    forall j :: 0 <= j < |q.jobs| && q.jobs[j].identity.jobType == Normalize ==>
      q.jobs[j].leaseToken.Some? ==> q.jobs[j].leaseToken.value !in tokens
  }

  ghost predicate NoneEligible(q: Queue, now: Time) {
    forall j :: 0 <= j < |q.jobs| ==> !Eligible(q.jobs[j], now)
  }

  /** Job `j` of another type is left leased under `token`. */
  predicate StuckWith(q: Queue, j: nat, token: Token) {
    && j < |q.jobs| && q.jobs[j].status == JobStatus.Running && q.jobs[j].leaseToken == Some(token)
    && q.jobs[j].identity.jobType != Normalize
  }

  lemma FreshAreNotHeld(q: Queue, tokens: seq<Token>)
    requires L.Invariant(q) && FreshTokens(q, tokens)
    ensures NoneHeld(q, tokens)
  {
    forall j | 0 <= j < |q.jobs| && q.jobs[j].leaseToken.Some? ensures q.jobs[j].leaseToken.value !in tokens {
      assert L.AttemptsSound(q, j);
    }
  }

  lemma ClaimedNext(q: Queue, ids: seq<nat>, token: Token, rest: seq<Token>, used: seq<Token>, lease: Lease)
    requires L.Invariant(q) && FreshTokens(q, [token] + rest) && NoneHeld(q, used)
    requires IsTopBatch(q.jobs, ids, lease.now, 1)
    ensures
      var r := ClaimAll(q, ids, [token][..|ids|], lease);
      && L.Invariant(r) && FreshTokens(r, rest)
      && (ids == [] ==> r == q && NoneEligible(q, lease.now))
      && (ids != [] ==> ids[0] < |r.jobs| && r.jobs[ids[0]] == ClaimedJob(q.jobs[ids[0]], token, lease))
      && (forall j :: 0 <= j < |r.jobs| && j !in ids ==>
            r.jobs[j].leaseToken.Some? ==> r.jobs[j].leaseToken.value !in used && r.jobs[j].leaseToken.value != token)
  {
    hide IsTopBatch, Eligible, L.Invariant, ClaimedJob;
    assert ([token] + rest)[0] == token && ([token] + rest)[1..] == rest;
    FreshAreNotHeld(q, [token] + rest);
    BatchOfOne(q, ids, lease.now);
    var tokens := [token][..|ids|];
    L.ClaimAllKeeps(q, ids, tokens, lease);
    L.ClaimAllEffect(q, ids, tokens, lease);
    assert token in [token] + rest;
    forall key | key in ClaimAll(q, ids, tokens, lease).attempts
      ensures ClaimAll(q, ids, tokens, lease).attempts[key].leaseToken !in rest
    {
      if key in q.attempts && ClaimAll(q, ids, tokens, lease).attempts[key] == q.attempts[key] {
        assert q.attempts[key].leaseToken !in [token] + rest;
      }
    }
  }

  lemma BatchOfOne(q: Queue, ids: seq<nat>, now: Time)
    requires IsTopBatch(q.jobs, ids, now, 1)
    ensures |ids| <= 1 && Distinct(ids)
    ensures forall a :: 0 <= a < |ids| ==> ids[a] < |q.jobs| && Eligible(q.jobs[ids[a]], now)
    ensures ids == [] ==> NoneEligible(q, now)
  {
  }

  lemma CompletedNext(q: Queue, id: nat, token: Token, report: Report, rest: seq<Token>, used: seq<Token>)
    requires L.Invariant(q) && FreshTokens(q, rest) && id < |q.jobs|
    requires q.jobs[id].leaseToken == Some(token) && IsCompletion(report.status)
    requires forall j :: 0 <= j < |q.jobs| && j != id ==>
               q.jobs[j].leaseToken.Some? ==> q.jobs[j].leaseToken.value !in used && q.jobs[j].leaseToken.value != token
    ensures
      var r := Complete(q, id, token, report);
      L.Invariant(r) && FreshTokens(r, rest) && NoneHeld(r, used + [token])
  {
    L.StepKeeps(q, L.CompleteStep(id, token, report));
  }

  class NormalizeWorker {
    const queue: LeasedQueue
    const service: NormalizationService

    constructor (queue: LeasedQueue, service: NormalizationService)
      ensures this.queue == queue && this.service == service
    {
      this.queue, this.service := queue, service;
    }

    ghost function State(): System
      reads queue, service.db
    {
      System(queue.State(), service.db.State())
    }

    /** First transaction: claim one job; the claim is committed before its type is looked at. */
    method ClaimNext(lease: Lease, token: Token) returns (job: Option<nat>, ghost ids: seq<nat>)
      requires FreshTokens(queue.State(), [token])
      modifies queue
      ensures IsTopBatch(old(queue.jobs), ids, lease.now, 1)
      ensures queue.State() == ClaimAll(old(queue.State()), ids, [token][..|ids|], lease)
      ensures job == if ids != [] && ids[0] < |queue.jobs| && queue.jobs[ids[0]].identity.jobType == Normalize
                     then Some(ids[0]) else None
    {
      var claimed := queue.Claim(lease, 1, [token]);
      ids := claimed;
      job := None;
      if claimed != [] && queue.jobs[claimed[0]].identity.jobType == Normalize {
        job := Some(claimed[0]);
      }
    }

    /** Second transaction: process, then report on the lease; the answer of `complete` is not looked at. */
    method FinishJob(job: nat, token: Token, via: DiscoveryMethod, now: Time, at: Time)
      requires service.Valid() && ForeignKeys(service.db.State())
      requires job < |queue.jobs| && queue.jobs[job].identity.jobType == Normalize
      modifies queue, service.db
      ensures State() == Perform(old(State()), Finish(job, token, via, now, at))
      ensures ForeignKeys(service.db.State())
    {
      hide ProcessObservation, Normalized, Complete, ForeignKeys;
      ghost var before := State();
      var o := queue.jobs[job].identity.inputHash;
      var r := service.Process(o, via, now);
      assert queue.State() == before.queue;
      var report := if r.Success? then Report(JobStatus.Succeeded, None, at, RETRY_DELAY_SECONDS)
                    else Report(FailedRetryable, Some(ErrorName(r.error)), at, RETRY_DELAY_SECONDS);
      var _ := queue.CompleteJob(job, token, report);
      assert report == ReportOf(ProcessObservation(before.inventory, o, via, now), at);
    }

    /**
     * The loop. Everything it does is a run of the shared system; it stops early only when nothing is eligible or a job
     * of another type was leased and left behind; it leaves no NORMALIZE job leased under its tokens.
     */
    method Drain(worker: string, via: DiscoveryMethod, maxJobs: nat, tokens: seq<Token>, clock: nat -> Time)
      returns (processed: nat, ghost works: seq<WorkStep>)
      requires service.Valid() && ForeignKeys(service.db.State()) && L.Invariant(queue.State())
      requires |tokens| == maxJobs && FreshTokens(queue.State(), tokens)
      modifies queue, service.db
      ensures processed <= maxJobs
      ensures ForeignKeys(service.db.State()) && L.Invariant(queue.State())
      ensures IsWork(old(State()), works) && State() == Work(old(State()), works)
      ensures NoNormalizeHeld(queue.State(), tokens)
      ensures |works| == 2 * processed + if processed < maxJobs then 1 else 0
      ensures forall n: nat :: n < processed ==> IsTurn(works, n, worker, via, tokens, clock)
      ensures processed < maxJobs ==> IsClaim(works[2 * processed], Lease(worker, clock(3 * processed), 300))
      ensures processed < maxJobs ==>
                || NoneEligible(queue.State(), clock(3 * processed))
                || exists j :: StuckWith(queue.State(), j, tokens[processed])
    {
      hide ForeignKeys, L.Invariant, Perform, Allowed, FreshTokens, NoneHeld, IsTopBatch, ClaimAll, Complete, Work,
        IsWork, NoneEligible, NoNormalizeHeld, StuckWith, Eligible, ClaimedJob, IsTurn;
      processed, works := 0, [];
      assert IsWork(State(), []) && Work(State(), []) == State() by { NoWork(State()); }
      assert FreshTokens(queue.State(), tokens[0..]) && NoneHeld(queue.State(), tokens[..0]) by {
        assert tokens[0..] == tokens;
        NothingUsed(queue.State(), tokens[..0]);
      }
      while processed < maxJobs
        invariant processed <= maxJobs
        invariant ForeignKeys(service.db.State()) && L.Invariant(queue.State())
        invariant IsWork(old(State()), works) && State() == Work(old(State()), works)
        invariant |works| == 2 * processed
        invariant forall n: nat :: n < processed ==> IsTurn(works, n, worker, via, tokens, clock)
        invariant FreshTokens(queue.State(), tokens[processed..]) && NoneHeld(queue.State(), tokens[..processed])
      {
        ghost var start := queue.State();
        var token := tokens[processed];
        var lease := Lease(worker, clock(3 * processed), LEASE_SECONDS);
        assert tokens[processed..] == [token] + tokens[processed + 1..];
        assert FreshTokens(start, [token]) by { FreshHead(start, token, tokens[processed + 1..]); }
        ghost var before := State();
        var job;
        ghost var ids;
        job, ids := ClaimNext(lease, token);
        ClaimedNext(start, ids, token, tokens[processed + 1..], tokens[..processed], lease);
        BatchOfOne(start, ids, lease.now);
        assert FreshTokens(start, [token][..|ids|]) by { FreshPrefix(start, [token], |ids|); }
        ClaimPerforms(before, ids, [token][..|ids|], lease);
        ghost var claim := QueueWork(L.ClaimStep(ids, [token][..|ids|], lease, 1));
        WorkSnoc(old(State()), works, claim);
        ghost var turns := works;
        works := works + [claim];
        TurnsStay(turns, [claim], processed, worker, via, tokens, clock);
        if job.None? {
          StoppedEarly(start, queue.State(), ids, token, tokens, processed, lease);
          return;
        }
        ghost var claimed := State();
        FinishJob(job.value, token, via, clock(3 * processed + 1), clock(3 * processed + 2));
        ghost var finish := Finish(job.value, token, via, clock(3 * processed + 1), clock(3 * processed + 2));
        assert claimed.queue.jobs[job.value].leaseToken == Some(token) by {
          ClaimLeases(start.jobs[job.value], token, lease);
        }
        FinishPerforms(claimed, finish, tokens[processed + 1..], tokens[..processed]);
        WorkSnoc(old(State()), works, finish);
        works := works + [finish];
        TurnsGrow(turns, claim, finish, processed, ids, worker, via, tokens, clock);
        assert works == turns + [claim] + [finish];
        assert tokens[..processed + 1] == tokens[..processed] + [token];
        processed := processed + 1;
      }
      assert tokens[..processed] == tokens;
      assert NoNormalizeHeld(queue.State(), tokens) by { HeldByNone(queue.State(), tokens); }
    }
  }

  /** The turn of a processed job: a claim of one job for 300 seconds, then the finish of that job under its token. */
  predicate IsTurn(
      works: seq<WorkStep>, n: nat, worker: string, via: DiscoveryMethod, tokens: seq<Token>, clock: nat -> Time)
  {
    && 2 * n + 1 < |works| && n < |tokens| && works[2 * n + 1].Finish?
    && works[2 * n] == QueueWork(L.ClaimStep(
         [works[2 * n + 1].job], [tokens[n]], Lease(worker, clock(3 * n), 300), 1))
    && works[2 * n + 1] == Finish(works[2 * n + 1].job, tokens[n], via, clock(3 * n + 1), clock(3 * n + 2))
  }

  lemma TurnsStay(
      works: seq<WorkStep>, more: seq<WorkStep>, count: nat, worker: string, via: DiscoveryMethod, tokens: seq<Token>,
      clock: nat -> Time)
    requires forall n: nat :: n < count ==> IsTurn(works, n, worker, via, tokens, clock)
    ensures forall n: nat :: n < count ==> IsTurn(works + more, n, worker, via, tokens, clock)
  {
    var r := works + more;
    forall n: nat | n < count ensures IsTurn(r, n, worker, via, tokens, clock) {
      assert IsTurn(works, n, worker, via, tokens, clock);
      assert r[2 * n] == works[2 * n] && r[2 * n + 1] == works[2 * n + 1];
    }
  }

  /** A claim of at most one job. */
  predicate IsClaim(work: WorkStep, lease: Lease) {
    && work.QueueWork? && work.queueStep.ClaimStep?
    && work.queueStep.lease == lease && work.queueStep.batchSize == 1
  }

  lemma TurnsGrow(
      works: seq<WorkStep>, claim: WorkStep, finish: WorkStep, count: nat, ids: seq<nat>, worker: string,
      via: DiscoveryMethod, tokens: seq<Token>, clock: nat -> Time)
    requires |works| == 2 * count && count < |tokens| && |ids| == 1
    requires forall n: nat :: n < count ==> IsTurn(works, n, worker, via, tokens, clock)
    requires claim == QueueWork(
      L.ClaimStep(ids, [tokens[count]][..1], Lease(worker, clock(3 * count), LEASE_SECONDS), 1))
    requires finish == Finish(ids[0], tokens[count], via, clock(3 * count + 1), clock(3 * count + 2))
    ensures forall n: nat :: n < count + 1 ==>
              IsTurn(works + [claim] + [finish], n, worker, via, tokens, clock)
  {
    var r := works + [claim] + [finish];
    assert r[2 * count] == claim && r[2 * count + 1] == finish;
    assert ids == [ids[0]] && [tokens[count]][..1] == [tokens[count]];
    forall n: nat | n < count ensures IsTurn(r, n, worker, via, tokens, clock) {
      assert IsTurn(works, n, worker, via, tokens, clock);
      assert r[2 * n] == works[2 * n] && r[2 * n + 1] == works[2 * n + 1];
    }
  }

  lemma ClaimLeases(job: Job, token: Token, lease: Lease)
    ensures ClaimedJob(job, token, lease).leaseToken == Some(token)
  {
  }

  lemma ClaimPerforms(s: System, ids: seq<nat>, tokens: seq<Token>, lease: Lease)
    requires ForeignKeys(s.inventory) && |tokens| == |ids|
    requires FreshTokens(s.queue, tokens) && IsTopBatch(s.queue.jobs, ids, lease.now, 1)
    ensures
      var claim := QueueWork(L.ClaimStep(ids, tokens, lease, 1));
      Allowed(s, claim) && Perform(s, claim) == s.(queue := ClaimAll(s.queue, ids, tokens, lease))
  {
    hide ForeignKeys, ClaimAll, IsEligibleBatch, FreshTokens, ProcessObservation, Normalized, Complete;
  }

  lemma FreshPrefix(q: Queue, tokens: seq<Token>, n: nat)
    requires n <= |tokens| && FreshTokens(q, tokens)
    ensures FreshTokens(q, tokens[..n])
  {
  }

  lemma FinishPerforms(s: System, finish: WorkStep, rest: seq<Token>, used: seq<Token>)
    requires ForeignKeys(s.inventory) && finish.Finish? && finish.job < |s.queue.jobs|
    requires s.queue.jobs[finish.job].identity.jobType == Normalize
    requires L.Invariant(s.queue) && FreshTokens(s.queue, rest)
    requires s.queue.jobs[finish.job].leaseToken == Some(finish.token)
    requires forall j :: 0 <= j < |s.queue.jobs| && j != finish.job ==>
               s.queue.jobs[j].leaseToken.Some? ==>
                 s.queue.jobs[j].leaseToken.value !in used && s.queue.jobs[j].leaseToken.value != finish.token
    ensures Allowed(s, finish)
    ensures
      var q := Perform(s, finish).queue;
      L.Invariant(q) && FreshTokens(q, rest) && NoneHeld(q, used + [finish.token])
  {
    hide ForeignKeys, ProcessObservation, Normalized, Complete, L.Invariant, NoneHeld, FreshTokens;
    var o := s.queue.jobs[finish.job].identity.inputHash;
    var report := ReportOf(ProcessObservation(s.inventory, o, finish.via, finish.now), finish.at);
    CompletedNext(s.queue, finish.job, finish.token, report, rest, used);
  }

  lemma StoppedEarly(
      start: Queue, q: Queue, ids: seq<nat>, token: Token, tokens: seq<Token>, processed: nat, lease: Lease)
    requires processed < |tokens| && token == tokens[processed]
    requires L.Invariant(start) && FreshTokens(start, tokens[processed..]) && NoneHeld(start, tokens[..processed])
    requires IsTopBatch(start.jobs, ids, lease.now, 1) && q == ClaimAll(start, ids, [token][..|ids|], lease)
    requires ids != [] ==> ids[0] < |q.jobs| && q.jobs[ids[0]].identity.jobType != Normalize
    ensures NoNormalizeHeld(q, tokens)
    ensures NoneEligible(q, lease.now) || StuckWith(q, ids[0], token)
    ensures NoneEligible(q, lease.now) || ids != []
  {
    hide ClaimAll, L.Invariant, IsTopBatch, Eligible;
    FreshAreNotHeld(start, tokens[processed..]);
    assert tokens == tokens[..processed] + tokens[processed..];
    BatchOfOne(start, ids, lease.now);
    assert tokens[processed..] == [token] + tokens[processed + 1..];
    ClaimedNext(start, ids, token, tokens[processed + 1..], tokens[..processed], lease);
    L.ClaimAllEffect(start, ids, [token][..|ids|], lease);
  }

  lemma HeldByNone(q: Queue, tokens: seq<Token>)
    requires NoneHeld(q, tokens)
    ensures NoNormalizeHeld(q, tokens)
  {
  }

  lemma NoWork(s: System)
    requires ForeignKeys(s.inventory)
    ensures IsWork(s, []) && Work(s, []) == s
  {
  }

  lemma NothingUsed(q: Queue, none: seq<Token>)
    requires none == []
    ensures NoneHeld(q, none)
  {
  }

  lemma FreshHead(q: Queue, token: Token, rest: seq<Token>)
    requires FreshTokens(q, [token] + rest)
    ensures FreshTokens(q, [token])
  {
    assert token in [token] + rest;
  }
}
