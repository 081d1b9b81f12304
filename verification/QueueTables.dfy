/** The queue's transactions in the columns of its tables, and how long a lease is exclusive. */
module QueueTables {
  import opened Prelude
  import opened JobQueue
  import opened LeaseProtocol

  // ---------------------------------------------------------------- enqueue

  /** A row is refused exactly when one of its identity is neither terminally failed nor cancelled; else it waits. */
  lemma EnqueuedRow(q: Queue, job: NewJob, now: Time)
    ensures
      var r := Enqueue(q, job, now);
      if exists j :: 0 <= j < |q.jobs| && q.jobs[j].identity == job.identity
           && q.jobs[j].status !in {FailedTerminal, Cancelled}
      then r == q
      else
        && r.attempts == q.attempts && |r.jobs| == |q.jobs| + 1 && r.jobs[..|q.jobs|] == q.jobs
        && var row := r.jobs[|q.jobs|];
           && row.identity == job.identity && row.refreshRun == job.refreshRun
           && row.status == Pending && row.priority == job.priority && row.createdAt == now
           && row.attemptCount == 0 && row.maxAttempts == job.maxAttempts
           && row.nextAttemptAt == (if job.nextAttemptAt.Some? then job.nextAttemptAt else Some(now))
           && row.leaseToken == None && row.leasedBy == None && row.leaseExpiresAt == None
           && row.heartbeatAt == None && row.startedAt == None && row.completedAt == None
           && row.errorCode == None && row.terminalReason == None
  {
  }

  // ---------------------------------------------------------------- claim

  /**
   * Chosen rows wait, are due, hold no running lease and have an attempt left; whoever is left out comes after them.
   */
  lemma ClaimTakesTheDue(jobs: seq<Job>, ids: seq<nat>, now: Time, batchSize: nat)
    requires IsTopBatch(jobs, ids, now, batchSize)
    ensures |ids| <= batchSize && forall a, b :: 0 <= a < b < |ids| ==> ids[a] != ids[b]
    ensures forall a :: 0 <= a < |ids| ==>
      && ids[a] < |jobs| && jobs[ids[a]].status in {Pending, FailedRetryable}
      && jobs[ids[a]].nextAttemptAt.Some? && jobs[ids[a]].nextAttemptAt.value <= now
      && (jobs[ids[a]].leaseExpiresAt.Some? ==> jobs[ids[a]].leaseExpiresAt.value < now)
      && jobs[ids[a]].attemptCount < jobs[ids[a]].maxAttempts
    ensures forall a, b :: 0 <= a < b < |ids| ==>
      && jobs[ids[a]].priority >= jobs[ids[b]].priority
      && (jobs[ids[a]].priority == jobs[ids[b]].priority ==> jobs[ids[a]].createdAt <= jobs[ids[b]].createdAt)
    ensures forall j: nat | j < |jobs| && j !in ids ::
      && jobs[j].status in {Pending, FailedRetryable}
      && jobs[j].nextAttemptAt.Some? && jobs[j].nextAttemptAt.value <= now
      && (jobs[j].leaseExpiresAt.Some? ==> jobs[j].leaseExpiresAt.value < now)
      && jobs[j].attemptCount < jobs[j].maxAttempts
      ==> |ids| == batchSize && forall a :: 0 <= a < |ids| ==>
            && jobs[ids[a]].priority >= jobs[j].priority
            && (jobs[ids[a]].priority == jobs[j].priority ==> jobs[ids[a]].createdAt <= jobs[j].createdAt)
  {
    forall j: nat | j < |jobs| && j !in ids && Eligible(jobs[j], now)
      ensures |ids| == batchSize && forall a :: 0 <= a < |ids| ==> !Before(jobs[j], jobs[ids[a]])
    {
    }
  }

  /**
   * A chosen row runs under its token until `now + seconds`, one attempt further, with an open attempt row of its own.
   */
  lemma {:induction false} ClaimedRows(q: Queue, ids: seq<nat>, tokens: seq<Token>, lease: Lease, a: nat)
    requires |ids| == |tokens| && Distinct(ids) && (forall b :: 0 <= b < |ids| ==> ids[b] < |q.jobs|) && a < |ids|
    ensures
      var r := ClaimAll(q, ids, tokens, lease);
      var was, row := q.jobs[ids[a]], r.jobs[ids[a]];
      && row.status == Running && row.leaseToken == Some(tokens[a]) && row.leasedBy == Some(lease.worker)
      && row.leaseExpiresAt == Some(lease.now + lease.seconds) && row.heartbeatAt == Some(lease.now)
      && row.startedAt == Some(lease.now) && row.attemptCount == was.attemptCount + 1
      && row.maxAttempts == was.maxAttempts && row.identity == was.identity && row.refreshRun == was.refreshRun
      && row.priority == was.priority && row.createdAt == was.createdAt && row.nextAttemptAt == was.nextAttemptAt
      && row.completedAt == was.completedAt && row.errorCode == was.errorCode
      && row.terminalReason == was.terminalReason
      && (ids[a], was.attemptCount + 1) in r.attempts
      && r.attempts[(ids[a], was.attemptCount + 1)]
           == JobAttempt(tokens[a], lease.worker, lease.now, None, None, None)
  {
    var last := |ids| - 1;
    ClaimAllEffect(q, ids, tokens, lease);
    ClaimAllEffect(q, ids[..last], tokens[..last], lease);
    if a < last {
      ClaimedRows(q, ids[..last], tokens[..last], lease, a);
      assert ids[..last][a] == ids[a] && tokens[..last][a] == tokens[a];
    } else {
      assert ids[last] !in ids[..last];
    }
  }

  // ---------------------------------------------------------------- how long a lease lasts

  /** Between the first and the last moment of a claimed row's lease it is due to nobody, and no recovery takes it. */
  lemma LeaseWindow(q: Queue, ids: seq<nat>, tokens: seq<Token>, lease: Lease, a: nat, later: Time)
    requires |ids| == |tokens| && Distinct(ids) && (forall b :: 0 <= b < |ids| ==> ids[b] < |q.jobs|) && a < |ids|
    ensures !Eligible(ClaimAll(q, ids, tokens, lease).jobs[ids[a]], later)
    ensures
      var r := ClaimAll(q, ids, tokens, lease);
      RecoverExpiredLeases(r, later).jobs[ids[a]] == r.jobs[ids[a]] <==> later <= lease.now + lease.seconds
  {
    ClaimedRows(q, ids, tokens, lease, a);
  }

  /** Nothing in the step ends the lease of job `j` before `until`. */
  predicate Spares(step: Step, j: nat, token: Token, until: Time) {
    match step
    case RecoverStep(now) => now <= until
    case HeartbeatStep(id, beat, now, extend) => id == j && beat == token ==> until <= now + extend
    case CompleteStep(id, reported, _) => !(id == j && reported == token)
    case _ => true
  }

  /** The job runs under the token, at least until then. */
  predicate LeasedUntil(q: Queue, j: nat, token: Token, until: Time) {
    && j < |q.jobs| && q.jobs[j].status == Running && q.jobs[j].leaseToken == Some(token)
    && q.jobs[j].leaseExpiresAt.Some? && until <= q.jobs[j].leaseExpiresAt.value
  }

  lemma StepKeepsLease(q: Queue, step: Step, j: nat, token: Token, until: Time)
    requires Enabled(q, step) && LeasedUntil(q, j, token, until) && Spares(step, j, token, until)
    ensures LeasedUntil(Apply(q, step), j, token, until)
    ensures Apply(q, step).jobs[j].attemptCount == q.jobs[j].attemptCount
  {
    if step.ClaimStep? {
      assert j !in step.ids;
      ClaimAllEffect(q, step.ids, step.tokens, step.lease);
    }
  }

  /**
   * A lease is exclusive until it expires: whatever other workers enqueue, claim, beat, report or recover before that
   * moment, the job keeps running under its token and no further attempt of it is started.
   */
  lemma {:induction false} LeaseIsExclusive(q: Queue, steps: seq<Step>, j: nat, token: Token, until: Time)
    requires IsRun(q, steps) && LeasedUntil(q, j, token, until)
    requires forall s :: 0 <= s < |steps| ==> Spares(steps[s], j, token, until)
    ensures LeasedUntil(Run(q, steps), j, token, until)
    ensures Run(q, steps).jobs[j].attemptCount == q.jobs[j].attemptCount
    decreases |steps|
  {
    hide LeasedUntil, Spares;
    if steps != [] {
      StepKeepsLease(q, steps[0], j, token, until);
      LeaseIsExclusive(Apply(q, steps[0]), steps[1..], j, token, until);
    }
  }

  /** A heartbeat moves the lease of a job running under its token, and nothing else at all. */
  lemma HeartbeatExtends(q: Queue, j: nat, token: Token, now: Time, extend: int)
    ensures
      var r := Heartbeat(q, j, token, now, extend);
      if j < |q.jobs| && q.jobs[j].status == Running && q.jobs[j].leaseToken == Some(token)
      then
        && r.attempts == q.attempts && |r.jobs| == |q.jobs|
        && (forall i :: 0 <= i < |q.jobs| && i != j ==> r.jobs[i] == q.jobs[i])
        && r.jobs[j] == q.jobs[j].(heartbeatAt := Some(now), leaseExpiresAt := Some(now + extend))
      else r == q
  {
  }

  // ---------------------------------------------------------------- complete

  /** A report is taken from the token's holder only, and only with a status other than PENDING and RUNNING. */
  lemma ReportTakenIff(q: Queue, j: nat, token: Token, report: Report)
    ensures Accepts(q, j, token, report) <==>
      && report.status !in {Pending, Running} && j < |q.jobs| && q.jobs[j].leaseToken == Some(token)
    ensures !Accepts(q, j, token, report) ==> Complete(q, j, token, report) == q
  {
  }

  /**
   * A retryable report with an attempt left reschedules the job for `now + delay`, claimable from then on and not
   * before; without one it fails terminally with its reason; any other status is stored as reported.
   */
  lemma AcceptedReport(q: Queue, j: nat, token: Token, report: Report, later: Time)
    requires Accepts(q, j, token, report)
    ensures
      var was, row := q.jobs[j], Complete(q, j, token, report).jobs[j];
      && row.leaseToken == None && row.leasedBy == None && row.leaseExpiresAt == None
      && row.errorCode == report.errorCode && row.attemptCount == was.attemptCount
      && row.identity == was.identity && row.maxAttempts == was.maxAttempts && row.priority == was.priority
      && (report.status == FailedRetryable && was.attemptCount < was.maxAttempts ==>
            && row.status == FailedRetryable && row.completedAt == was.completedAt
            && row.nextAttemptAt == Some(report.now + report.retryDelaySeconds)
            && row.terminalReason == was.terminalReason
            && (Eligible(row, later) <==> report.now + report.retryDelaySeconds <= later))
      && (report.status == FailedRetryable && was.attemptCount >= was.maxAttempts ==>
            && row.status == FailedTerminal && row.terminalReason == Some("max_attempts_exhausted")
            && row.completedAt == Some(report.now) && row.nextAttemptAt == was.nextAttemptAt)
      && (report.status != FailedRetryable ==>
            && row.status == report.status && row.completedAt == Some(report.now)
            && row.terminalReason == was.terminalReason && row.nextAttemptAt == was.nextAttemptAt)
      && (row.status != FailedRetryable ==> !Eligible(row, later))
  {
  }

  /** Besides that row, only the attempt row of the current attempt is closed, with the status stored. */
  lemma ReportClosesAttempt(q: Queue, j: nat, token: Token, report: Report)
    requires Accepts(q, j, token, report)
    ensures
      var r := Complete(q, j, token, report);
      var key := (j, q.jobs[j].attemptCount);
      && |r.jobs| == |q.jobs| && (forall i :: 0 <= i < |q.jobs| && i != j ==> r.jobs[i] == q.jobs[i])
      && r.attempts.Keys == q.attempts.Keys
      && (forall other :: other in q.attempts && other != key ==> r.attempts[other] == q.attempts[other])
      && (key in q.attempts ==>
            r.attempts[key] == q.attempts[key].(
              completedAt := Some(report.now), outcome := Some(r.jobs[j].status), errorCode := report.errorCode))
  {
  }

  // ---------------------------------------------------------------- recovery

  /** Exactly the running rows whose lease ended before now become retryable at once, without a lease. */
  lemma RecoveredRow(q: Queue, now: Time, j: nat)
    requires j < |q.jobs|
    ensures RecoverExpiredLeases(q, now).attempts == q.attempts && |RecoverExpiredLeases(q, now).jobs| == |q.jobs|
    ensures
      var was, row := q.jobs[j], RecoverExpiredLeases(q, now).jobs[j];
      if was.status == Running && was.leaseExpiresAt.Some? && was.leaseExpiresAt.value < now
      then row == was.(status := FailedRetryable, leaseToken := None, leasedBy := None, leaseExpiresAt := None,
                       errorCode := Some("LEASE_EXPIRED"), nextAttemptAt := Some(now))
      else row == was
  {
  }

  /**
   * Only recovery strands: a step after which a job is retryable in name without attempts left, and was not before, is
   * a recovery that took the expired lease of its last attempt.
   */
  lemma OnlyRecoveryStrands(q: Queue, step: Step, j: nat)
    requires Invariant(q) && Enabled(q, step) && j < |q.jobs|
    requires !(q.jobs[j].status == FailedRetryable && q.jobs[j].attemptCount >= q.jobs[j].maxAttempts)
    ensures j < |Apply(q, step).jobs|
    ensures
      var row := Apply(q, step).jobs[j];
      row.status == FailedRetryable && row.attemptCount >= row.maxAttempts <==>
        && step.RecoverStep? && q.jobs[j].status == Running && q.jobs[j].attemptCount >= q.jobs[j].maxAttempts
        && q.jobs[j].leaseExpiresAt.Some? && q.jobs[j].leaseExpiresAt.value < step.now
  {
    if step.ClaimStep? {
      ClaimAllEffect(q, step.ids, step.tokens, step.lease);
      if j in step.ids {
        var a :| 0 <= a < |step.ids| && step.ids[a] == j;
      }
    }
  }
}
