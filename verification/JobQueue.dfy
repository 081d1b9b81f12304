/** The leased job queue: rows, one atomic transaction per call, and the class the workers share. */
module JobQueue {
  import opened Prelude

  type Token = nat

  datatype JobStatus =
    | Pending | Running | Succeeded | FailedRetryable | FailedTerminal | Blocked | Cancelled | Cached

  datatype JobType =
    | Normalize | IdentityResolve | Reconcile | LlmExtract | MediaFetch | MediaClassify
    | FloorplanMatch | Geocode | TransitEnrich | CommuteEnrich | Validate | Export

  /** The columns of the partial unique index on live jobs. `inputHash` is compared only, never read. */
  datatype JobIdentity = JobIdentity(
    jobType: JobType, listing: Option<nat>, inputHash: nat, dependencyVersion: string)

  datatype NewJob = NewJob(
    identity: JobIdentity, refreshRun: Option<nat>, priority: int, maxAttempts: int,
    nextAttemptAt: Option<Time>)

  datatype Job = Job(
    identity: JobIdentity,
    refreshRun: Option<nat>,
    status: JobStatus,
    priority: int,
    attemptCount: nat,
    maxAttempts: int,
    nextAttemptAt: Option<Time>,
    startedAt: Option<Time>,
    completedAt: Option<Time>,
    errorCode: Option<string>,
    leaseToken: Option<Token>,
    leasedBy: Option<string>,
    leaseExpiresAt: Option<Time>,
    heartbeatAt: Option<Time>,
    terminalReason: Option<string>,
    createdAt: Time)

  datatype JobAttempt = JobAttempt(
    leaseToken: Token, leasedBy: string, startedAt: Time,
    completedAt: Option<Time>, outcome: Option<JobStatus>, errorCode: Option<string>)

  /** A job's id is its row number; an attempt row is keyed by its unique (job, attempt number). */
  datatype Queue = Queue(jobs: seq<Job>, attempts: map<(nat, nat), JobAttempt>)

  const EMPTY_QUEUE := Queue([], map[])

  // ---------------------------------------------------------------- predicates of the SQL

  /** Rows covered by the partial unique index: terminal-failed and cancelled rows do not block. */
  predicate Live(job: Job) {
    job.status != FailedTerminal && job.status != Cancelled
  }

  predicate Claimable(status: JobStatus) {
    status == Pending || status == FailedRetryable
  }

  predicate Eligible(job: Job, now: Time) {
    && Claimable(job.status)
    && job.nextAttemptAt.Some? && job.nextAttemptAt.value <= now
    && (job.leaseExpiresAt.None? || job.leaseExpiresAt.value < now)
    && job.attemptCount < job.maxAttempts
  }

  predicate Expired(job: Job, now: Time) {
    job.status == Running && job.leaseExpiresAt.Some? && job.leaseExpiresAt.value < now
  }

  predicate IsCompletion(status: JobStatus) {
    status != Pending && status != Running
  }

  /** ORDER BY priority DESC, created_at ASC, ties in any order. */
  predicate Before(a: Job, b: Job) {
    a.priority > b.priority || (a.priority == b.priority && a.createdAt < b.createdAt)
  }

  predicate Conflicts(jobs: seq<Job>, identity: JobIdentity) {
    exists j :: 0 <= j < |jobs| && Live(jobs[j]) && jobs[j].identity == identity
  }

  ghost predicate Distinct<T(!new)>(s: seq<T>) {
    forall a, b :: 0 <= a < b < |s| ==> s[a] != s[b]
  }

  /** A batch of distinct eligible rows: all that is certain while other workers hold row locks that are skipped. */
  ghost predicate IsEligibleBatch(jobs: seq<Job>, ids: seq<nat>, now: Time, batchSize: nat) {
    && |ids| <= batchSize
    && Distinct(ids)
    && (forall a :: 0 <= a < |ids| ==> ids[a] < |jobs| && Eligible(jobs[ids[a]], now))
  }

  /** What SELECT ... ORDER BY ... LIMIT promises: no eligible row left out precedes a chosen one. */
  ghost predicate IsTopBatch(jobs: seq<Job>, ids: seq<nat>, now: Time, batchSize: nat) {
    && IsEligibleBatch(jobs, ids, now, batchSize)
    && (forall a, b :: 0 <= a < b < |ids| ==> !Before(jobs[ids[b]], jobs[ids[a]]))
    && (forall j: nat :: j < |jobs| && Eligible(jobs[j], now) && j !in ids ==>
          |ids| == batchSize && forall a :: 0 <= a < |ids| ==> !Before(jobs[j], jobs[ids[a]]))
  }

  ghost predicate FreshTokens(q: Queue, tokens: seq<Token>) {
    && Distinct(tokens)
    && (forall key :: key in q.attempts ==> q.attempts[key].leaseToken !in tokens)
  }

  // ---------------------------------------------------------------- transactions

  function InsertedJob(job: NewJob, now: Time): Job {
    Job(job.identity, job.refreshRun, Pending, job.priority, 0, job.maxAttempts,
        if job.nextAttemptAt.Some? then job.nextAttemptAt else Some(now),
        None, None, None, None, None, None, None, None, now)
  }

  function Enqueue(q: Queue, job: NewJob, now: Time): Queue {
    if Conflicts(q.jobs, job.identity) then q
    else q.(jobs := q.jobs + [InsertedJob(job, now)])
  }

  datatype Lease = Lease(worker: string, now: Time, seconds: int)

  function ClaimedJob(job: Job, token: Token, lease: Lease): Job {
    job.(status := Running,
         leaseToken := Some(token),
         leasedBy := Some(lease.worker),
         leaseExpiresAt := Some(lease.now + lease.seconds),
         heartbeatAt := Some(lease.now),
         attemptCount := job.attemptCount + 1,
         startedAt := Some(lease.now))
  }

  function ClaimOne(q: Queue, id: nat, token: Token, lease: Lease): (r: Queue)
    requires id < |q.jobs|
  {
    var job := ClaimedJob(q.jobs[id], token, lease);
    Queue(q.jobs[id := job],
          q.attempts[(id, job.attemptCount) := JobAttempt(token, lease.worker, lease.now, None, None, None)])
  }

  function ClaimAll(q: Queue, ids: seq<nat>, tokens: seq<Token>, lease: Lease): (r: Queue)
    requires |ids| == |tokens|
    requires forall a :: 0 <= a < |ids| ==> ids[a] < |q.jobs|
    ensures |r.jobs| == |q.jobs|
  {
    if ids == [] then
      q
    else
      var last := |ids| - 1;
      ClaimOne(ClaimAll(q, ids[..last], tokens[..last], lease), ids[last], tokens[last], lease)
  }

  predicate Beats(q: Queue, id: nat, token: Token) {
    id < |q.jobs| && q.jobs[id].leaseToken == Some(token) && q.jobs[id].status == Running
  }

  function Heartbeat(q: Queue, id: nat, token: Token, now: Time, extendSeconds: int): Queue {
    if Beats(q, id, token) then
      q.(jobs := q.jobs[id := q.jobs[id].(heartbeatAt := Some(now), leaseExpiresAt := Some(now + extendSeconds))])
    else
      q
  }

  datatype Report = Report(status: JobStatus, errorCode: Option<string>, now: Time, retryDelaySeconds: int)

  /** `complete` checks the token and nothing else: neither the status nor the expiry of the lease. */
  predicate Accepts(q: Queue, id: nat, token: Token, report: Report) {
    IsCompletion(report.status) && id < |q.jobs| && q.jobs[id].leaseToken == Some(token)
  }

  function FinalStatus(job: Job, status: JobStatus): JobStatus {
    if status == FailedRetryable && job.attemptCount >= job.maxAttempts then FailedTerminal else status
  }

  function CompletedJob(job: Job, report: Report): Job {
    var status := FinalStatus(job, report.status);
    job.(status := status,
         errorCode := report.errorCode,
         leaseToken := None,
         leasedBy := None,
         leaseExpiresAt := None,
         terminalReason :=
           if status != report.status then Some("max_attempts_exhausted") else job.terminalReason,
         nextAttemptAt :=
           if status == FailedRetryable then Some(report.now + report.retryDelaySeconds) else job.nextAttemptAt,
         completedAt := if status == FailedRetryable then job.completedAt else Some(report.now))
  }

  function Complete(q: Queue, id: nat, token: Token, report: Report): Queue {
    if !Accepts(q, id, token, report) then
      q
    else
      var job := CompletedJob(q.jobs[id], report);
      var key := (id, job.attemptCount);
      Queue(q.jobs[id := job],
            if key !in q.attempts then q.attempts
            else q.attempts[key := q.attempts[key].(completedAt := Some(report.now),
                                                    outcome := Some(job.status),
                                                    errorCode := report.errorCode)])
  }

  function RecoveredJob(job: Job, now: Time): Job {
    if Expired(job, now) then
      job.(status := FailedRetryable, leaseToken := None, leasedBy := None, leaseExpiresAt := None,
           errorCode := Some("LEASE_EXPIRED"), nextAttemptAt := Some(now))
    else
      job
  }

  function RecoverExpiredLeases(q: Queue, now: Time): Queue {
    q.(jobs := seq(|q.jobs|, i requires 0 <= i < |q.jobs| => RecoveredJob(q.jobs[i], now)))
  }

  // ---------------------------------------------------------------- the service object

  /** One shared queue; each method body is one committed transaction. */
  class LeasedQueue {
    var jobs: seq<Job>
    var attempts: map<(nat, nat), JobAttempt>

    ghost function State(): Queue
      reads this
    {
      Queue(jobs, attempts)
    }

    constructor ()
      ensures State() == EMPTY_QUEUE
    {
      jobs := [];
      attempts := map[];
    }

    /** INSERT ... ON CONFLICT DO NOTHING RETURNING job_id. */
    method EnqueueJob(job: NewJob, now: Time) returns (id: Option<nat>)
      modifies this
      ensures State() == Enqueue(old(State()), job, now)
      ensures id == if Conflicts(old(jobs), job.identity) then None else Some(|old(jobs)|)
    {
      if Conflicts(jobs, job.identity) {
        return None;
      }
      id := Some(|jobs|);
      jobs := jobs + [InsertedJob(job, now)];
    }

    /** The candidate query of `claim`: repeatedly the best eligible row not taken yet. */
    method SelectCandidates(now: Time, batchSize: nat) returns (ids: seq<nat>)
      ensures IsTopBatch(jobs, ids, now, batchSize)
    {
      ids := [];
      while |ids| < batchSize
        invariant |ids| <= batchSize
        invariant Distinct(ids)
        invariant forall a :: 0 <= a < |ids| ==> ids[a] < |jobs| && Eligible(jobs[ids[a]], now)
        invariant forall a, b :: 0 <= a < b < |ids| ==> !Before(jobs[ids[b]], jobs[ids[a]])
        invariant forall j: nat, a :: j < |jobs| && Eligible(jobs[j], now) && j !in ids && 0 <= a < |ids| ==>
                    !Before(jobs[j], jobs[ids[a]])
        decreases batchSize - |ids|
      {
        var best: Option<nat> := None;
        for j: nat := 0 to |jobs|
          invariant best.Some? ==> best.value < j && Eligible(jobs[best.value], now) && best.value !in ids
          invariant forall k: nat :: k < j && Eligible(jobs[k], now) && k !in ids ==>
                      best.Some? && !Before(jobs[k], jobs[best.value])
        {
          if Eligible(jobs[j], now) && j !in ids && (best.None? || Before(jobs[j], jobs[best.value])) {
            best := Some(j);
          }
        }
        if best.None? {
          return;
        }
        ids := ids + [best.value];
      }
    }

    /** Leases up to `batchSize` jobs; `tokens` are the fresh uuid4 values drawn, one per claimed job. */
    method Claim(lease: Lease, batchSize: nat, tokens: seq<Token>) returns (ids: seq<nat>)
      requires |tokens| == batchSize && FreshTokens(State(), tokens)
      modifies this
      ensures IsTopBatch(old(jobs), ids, lease.now, batchSize)
      ensures State() == ClaimAll(old(State()), ids, tokens[..|ids|], lease)
    {
      ids := SelectCandidates(lease.now, batchSize);
      var n := 0;
      assert ids[..0] == [] && tokens[..0] == [];
      while n < |ids|
        invariant 0 <= n <= |ids|
        invariant |jobs| == |old(jobs)|
        invariant State() == ClaimAll(old(State()), ids[..n], tokens[..n], lease)
      {
        var job := jobs[ids[n]];
        job := job.(status := Running, leaseToken := Some(tokens[n]), leasedBy := Some(lease.worker));
        job := job.(leaseExpiresAt := Some(lease.now + lease.seconds), heartbeatAt := Some(lease.now));
        job := job.(attemptCount := job.attemptCount + 1, startedAt := Some(lease.now));
        jobs := jobs[ids[n] := job];
        attempts := attempts[(ids[n], job.attemptCount) :=
          JobAttempt(tokens[n], lease.worker, lease.now, None, None, None)];
        assert ids[..n + 1][..n] == ids[..n] && tokens[..n + 1][..n] == tokens[..n];
        n := n + 1;
      }
      assert ids[..n] == ids;
    }

    method BeatHeart(id: nat, token: Token, now: Time, extendSeconds: int) returns (alive: bool)
      modifies this
      ensures State() == Heartbeat(old(State()), id, token, now, extendSeconds)
      ensures alive == Beats(old(State()), id, token)
    {
      alive := id < |jobs| && jobs[id].leaseToken == Some(token) && jobs[id].status == Running;
      if alive {
        jobs := jobs[id := jobs[id].(heartbeatAt := Some(now), leaseExpiresAt := Some(now + extendSeconds))];
      }
    }

    method CompleteJob(id: nat, token: Token, report: Report) returns (accepted: Result<bool>)
      modifies this
      ensures State() == Complete(old(State()), id, token, report)
      ensures accepted == if IsCompletion(report.status) then Success(Accepts(old(State()), id, token, report))
                          else Failure(NotACompletion)
    {
      if !IsCompletion(report.status) {
        return Failure(NotACompletion);
      }
      if id >= |jobs| || jobs[id].leaseToken != Some(token) {
        return Success(false);
      }
      var job := jobs[id];
      var status := report.status;
      if status == FailedRetryable && job.attemptCount >= job.maxAttempts {
        status := FailedTerminal;
        job := job.(terminalReason := Some("max_attempts_exhausted"));
      }
      job := job.(status := status, errorCode := report.errorCode);
      job := job.(leaseToken := None, leasedBy := None, leaseExpiresAt := None);
      if status == FailedRetryable {
        job := job.(nextAttemptAt := Some(report.now + report.retryDelaySeconds));
      } else {
        job := job.(completedAt := Some(report.now));
      }
      jobs := jobs[id := job];
      var key := (id, job.attemptCount);
      if key in attempts {
        attempts := attempts[key := attempts[key].(completedAt := Some(report.now),
                                                   outcome := Some(status),
                                                   errorCode := report.errorCode)];
      }
      return Success(true);
    }

    /** A single bulk UPDATE; the answer is its row count. */
    method Recover(now: Time) returns (recovered: nat)
      modifies this
      ensures State() == RecoverExpiredLeases(old(State()), now)
      ensures recovered == |Where(old(jobs), (j: Job) => Expired(j, now))|
    {
      recovered := |Where(jobs, (j: Job) => Expired(j, now))|;
      var rows := jobs;
      jobs := seq(|rows|, i requires 0 <= i < |rows| => RecoveredJob(rows[i], now));
    }

    /** Counts the claimable rows. */
    method QueueDepth() returns (depth: nat)
      ensures depth == |set j: nat | j < |jobs| && Claimable(jobs[j].status)|
    {
      depth := 0;
      ghost var counted: set<nat> := {};
      for i: nat := 0 to |jobs|
        invariant counted == set j: nat | j < i && Claimable(jobs[j].status)
        invariant depth == |counted|
      {
        if Claimable(jobs[i].status) {
          depth := depth + 1;
          counted := counted + {i};
        }
      }
    }
  }
}
