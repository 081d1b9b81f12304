/** Safety and progress of the lease protocol over every interleaving of its transactions. */
module LeaseProtocol {
  import opened Prelude
  import opened JobQueue

  datatype Step =
    | EnqueueStep(job: NewJob, now: Time)
    | ClaimStep(ids: seq<nat>, tokens: seq<Token>, lease: Lease, batchSize: nat)
    | HeartbeatStep(id: nat, token: Token, now: Time, extendSeconds: int)
    | CompleteStep(id: nat, token: Token, report: Report)
    | RecoverStep(now: Time)

  /**
   * The database chooses the batch, skipping whatever rows are locked, and uuid4 the tokens; nothing else is
   * constrained, not even the clocks.
   */
  ghost predicate Enabled(q: Queue, step: Step) {
    step.ClaimStep? ==>
      && |step.tokens| == |step.ids|
      && IsEligibleBatch(q.jobs, step.ids, step.lease.now, step.batchSize)
      && FreshTokens(q, step.tokens)
  }

  ghost function Apply(q: Queue, step: Step): Queue
    requires Enabled(q, step)
  {
    match step
    case EnqueueStep(job, now) => Enqueue(q, job, now)
    case ClaimStep(ids, tokens, lease, _) => ClaimAll(q, ids, tokens, lease)
    case HeartbeatStep(id, token, now, extend) => Heartbeat(q, id, token, now, extend)
    case CompleteStep(id, token, report) => Complete(q, id, token, report)
    case RecoverStep(now) => RecoverExpiredLeases(q, now)
  }

  ghost predicate IsRun(q: Queue, steps: seq<Step>)
    decreases |steps|
  {
    steps == [] || (Enabled(q, steps[0]) && IsRun(Apply(q, steps[0]), steps[1..]))
  }

  ghost function Run(q: Queue, steps: seq<Step>): Queue
    requires IsRun(q, steps)
    decreases |steps|
  {
    if steps == [] then q else Run(Apply(q, steps[0]), steps[1..])
  }

  // ---------------------------------------------------------------- the invariant

  /** A job runs exactly when it holds a token, and its attempts never exceed its allowance. */
  predicate JobSound(job: Job) {
    && (job.status == Running <==> job.leaseToken.Some?)
    && (job.leaseToken.Some? <==> job.leaseExpiresAt.Some?)
    && job.attemptCount <= Max(0, job.maxAttempts)
  }

  /** The attempt rows of job `j` are numbered 1..attemptCount and the newest carries the current token. */
  ghost predicate AttemptsSound(q: Queue, j: nat)
    requires j < |q.jobs|
  {
    && (forall n: nat :: (j, n) in q.attempts <==> 1 <= n <= q.jobs[j].attemptCount)
    && (q.jobs[j].leaseToken.Some? ==>
          && (j, q.jobs[j].attemptCount) in q.attempts
          && q.attempts[(j, q.jobs[j].attemptCount)].leaseToken == q.jobs[j].leaseToken.value)
  }

  ghost predicate TokensDistinct(q: Queue) {
    forall a, b :: a in q.attempts && b in q.attempts && a != b ==>
      q.attempts[a].leaseToken != q.attempts[b].leaseToken
  }

  /** The partial unique index: one live row per identity. */
  ghost predicate LiveUnique(jobs: seq<Job>) {
    forall a, b :: 0 <= a < b < |jobs| && Live(jobs[a]) && Live(jobs[b]) ==> jobs[a].identity != jobs[b].identity
  }

  ghost predicate Invariant(q: Queue) {
    && (forall j :: 0 <= j < |q.jobs| ==> JobSound(q.jobs[j]))
    && (forall j: nat :: j < |q.jobs| ==> AttemptsSound(q, j))
    && (forall key :: key in q.attempts ==> key.0 < |q.jobs|)
    && TokensDistinct(q)
    && LiveUnique(q.jobs)
  }

  // ---------------------------------------------------------------- claiming

  /** A batch touches exactly the chosen rows, each once. */
  lemma {:induction false} ClaimAllEffect(q: Queue, ids: seq<nat>, tokens: seq<Token>, lease: Lease)
    requires |ids| == |tokens| && Distinct(ids)
    requires forall a :: 0 <= a < |ids| ==> ids[a] < |q.jobs|
    ensures forall j :: 0 <= j < |q.jobs| && j !in ids ==>
              ClaimAll(q, ids, tokens, lease).jobs[j] == q.jobs[j]
    ensures forall a :: 0 <= a < |ids| ==>
              ClaimAll(q, ids, tokens, lease).jobs[ids[a]] == ClaimedJob(q.jobs[ids[a]], tokens[a], lease)
  {
    if ids != [] {
      var last := |ids| - 1;
      ClaimAllEffect(q, ids[..last], tokens[..last], lease);
      assert ids[last] !in ids[..last];
      forall a | 0 <= a < last
        ensures ids[..last][a] == ids[a] && tokens[..last][a] == tokens[a] && ids[a] != ids[last]
      {
      }
    }
  }

  lemma ClaimOneKeeps(q: Queue, id: nat, token: Token, lease: Lease)
    requires Invariant(q) && id < |q.jobs|
    requires Claimable(q.jobs[id].status) && q.jobs[id].attemptCount < q.jobs[id].maxAttempts
    requires forall key :: key in q.attempts ==> q.attempts[key].leaseToken != token
    ensures Invariant(ClaimOne(q, id, token, lease))
  {
    var r := ClaimOne(q, id, token, lease);
    forall j: nat | j < |r.jobs| ensures AttemptsSound(r, j) {
      assert AttemptsSound(q, j);
    }
  }

  lemma {:induction false} ClaimAllKeeps(q: Queue, ids: seq<nat>, tokens: seq<Token>, lease: Lease)
    requires Invariant(q) && |ids| == |tokens| && Distinct(ids) && FreshTokens(q, tokens)
    requires forall a :: 0 <= a < |ids| ==> ids[a] < |q.jobs| && Eligible(q.jobs[ids[a]], lease.now)
    ensures Invariant(ClaimAll(q, ids, tokens, lease))
    ensures forall key :: key in ClaimAll(q, ids, tokens, lease).attempts ==>
              || (key in q.attempts && ClaimAll(q, ids, tokens, lease).attempts[key] == q.attempts[key])
              || ClaimAll(q, ids, tokens, lease).attempts[key].leaseToken in tokens
    ensures forall key :: key in q.attempts ==> key in ClaimAll(q, ids, tokens, lease).attempts
  {
    if ids != [] {
      var last := |ids| - 1;
      ClaimAllKeeps(q, ids[..last], tokens[..last], lease);
      ClaimAllEffect(q, ids[..last], tokens[..last], lease);
      assert ids[last] !in ids[..last];
      assert tokens[last] !in tokens[..last];
      ClaimOneKeeps(ClaimAll(q, ids[..last], tokens[..last], lease), ids[last], tokens[last], lease);
    }
  }

  lemma EnqueueKeeps(q: Queue, job: NewJob, now: Time)
    requires Invariant(q)
    ensures Invariant(Enqueue(q, job, now))
  {
    var r := Enqueue(q, job, now);
    forall j: nat | j < |r.jobs| ensures AttemptsSound(r, j) {
      if j < |q.jobs| { assert AttemptsSound(q, j); }
    }
  }

  lemma HeartbeatKeeps(q: Queue, id: nat, token: Token, now: Time, extendSeconds: int)
    requires Invariant(q)
    ensures Invariant(Heartbeat(q, id, token, now, extendSeconds))
  {
    var r := Heartbeat(q, id, token, now, extendSeconds);
    forall j: nat | j < |r.jobs| ensures AttemptsSound(r, j) {
      assert AttemptsSound(q, j);
    }
  }

  lemma CompleteKeeps(q: Queue, id: nat, token: Token, report: Report)
    requires Invariant(q)
    ensures Invariant(Complete(q, id, token, report))
  {
    var r := Complete(q, id, token, report);
    forall j: nat | j < |r.jobs| ensures AttemptsSound(r, j) {
      assert AttemptsSound(q, j);
    }
  }

  lemma RecoverKeeps(q: Queue, now: Time)
    requires Invariant(q)
    ensures Invariant(RecoverExpiredLeases(q, now))
  {
    var r := RecoverExpiredLeases(q, now);
    forall j: nat | j < |r.jobs| ensures AttemptsSound(r, j) {
      assert AttemptsSound(q, j);
    }
  }

  lemma StepKeeps(q: Queue, step: Step)
    requires Invariant(q) && Enabled(q, step)
    ensures Invariant(Apply(q, step))
  {
    hide Invariant, Enqueue, Heartbeat, Complete, RecoverExpiredLeases, ClaimAll;
    match step
    case EnqueueStep(job, now) => EnqueueKeeps(q, job, now);
    case ClaimStep(ids, tokens, lease, _) => ClaimAllKeeps(q, ids, tokens, lease);
    case HeartbeatStep(id, token, now, extend) => HeartbeatKeeps(q, id, token, now, extend);
    case CompleteStep(id, token, report) => CompleteKeeps(q, id, token, report);
    case RecoverStep(now) => RecoverKeeps(q, now);
  }

  /** Lease safety: the invariant holds after every run, from the empty queue or any sound one. */
  lemma {:induction false} RunKeeps(q: Queue, steps: seq<Step>)
    requires Invariant(q) && IsRun(q, steps)
    ensures Invariant(Run(q, steps))
    decreases |steps|
  {
    if steps != [] {
      StepKeeps(q, steps[0]);
      RunKeeps(Apply(q, steps[0]), steps[1..]);
    }
  }

  // ---------------------------------------------------------------- tokens are single-use

  ghost predicate Held(q: Queue, token: Token) {
    exists j :: 0 <= j < |q.jobs| && q.jobs[j].leaseToken == Some(token)
  }

  ghost predicate Issued(q: Queue, token: Token) {
    exists key :: key in q.attempts && q.attempts[key].leaseToken == token
  }

  /** Handed out once and held by nobody any more. */
  ghost predicate Spent(q: Queue, token: Token) {
    Issued(q, token) && !Held(q, token)
  }

  lemma ClaimHoldsOnlyNewTokens(q: Queue, ids: seq<nat>, tokens: seq<Token>, lease: Lease, token: Token)
    requires |ids| == |tokens| && Distinct(ids)
    requires forall a :: 0 <= a < |ids| ==> ids[a] < |q.jobs|
    requires token !in tokens && !Held(q, token)
    ensures !Held(ClaimAll(q, ids, tokens, lease), token)
  {
    var r := ClaimAll(q, ids, tokens, lease);
    ClaimAllEffect(q, ids, tokens, lease);
    forall j | 0 <= j < |r.jobs| ensures r.jobs[j].leaseToken != Some(token) {
      if j in ids {
        var a :| 0 <= a < |ids| && ids[a] == j;
        assert tokens[a] in tokens;
      }
    }
  }

  /** Attempt rows are never rewritten by later claims. */
  lemma {:induction false} ClaimAllAttempts(q: Queue, ids: seq<nat>, tokens: seq<Token>, lease: Lease, key: (nat, nat))
    requires Invariant(q) && |ids| == |tokens| && Distinct(ids) && FreshTokens(q, tokens)
    requires forall a :: 0 <= a < |ids| ==> ids[a] < |q.jobs| && Eligible(q.jobs[ids[a]], lease.now)
    requires key in q.attempts
    ensures key in ClaimAll(q, ids, tokens, lease).attempts
    ensures ClaimAll(q, ids, tokens, lease).attempts[key] == q.attempts[key]
  {
    hide Invariant, FreshTokens, Eligible, ClaimedJob;
    if ids != [] {
      var last := |ids| - 1;
      assert FreshTokens(q, tokens[..last]) by { FreshFront(q, tokens, last); }
      ClaimAllAttempts(q, ids[..last], tokens[..last], lease, key);
      ClaimAllEffect(q, ids[..last], tokens[..last], lease);
      assert ids[last] !in ids[..last];
      var before := ClaimAll(q, ids[..last], tokens[..last], lease);
      assert key != (ids[last], q.jobs[ids[last]].attemptCount + 1) by { NextAttemptIsNew(q, ids[last], key); }
      assert ClaimedJob(before.jobs[ids[last]], tokens[last], lease).attemptCount
          == q.jobs[ids[last]].attemptCount + 1 by {
        ClaimCounts(before.jobs[ids[last]], tokens[last], lease);
      }
    }
  }

  lemma FreshFront(q: Queue, tokens: seq<Token>, n: nat)
    requires n <= |tokens| && FreshTokens(q, tokens)
    ensures FreshTokens(q, tokens[..n])
  {
  }

  lemma NextAttemptIsNew(q: Queue, j: nat, key: (nat, nat))
    requires Invariant(q) && j < |q.jobs| && key in q.attempts
    ensures key != (j, q.jobs[j].attemptCount + 1)
  {
    assert AttemptsSound(q, j);
  }

  lemma ClaimCounts(job: Job, token: Token, lease: Lease)
    ensures ClaimedJob(job, token, lease).attemptCount == job.attemptCount + 1
  {
  }

  lemma SpentStays(q: Queue, step: Step, token: Token)
    requires Invariant(q) && Enabled(q, step) && Spent(q, token)
    ensures Spent(Apply(q, step), token)
  {
    var r := Apply(q, step);
    var key :| key in q.attempts && q.attempts[key].leaseToken == token;
    if step.ClaimStep? {
      ClaimAllKeeps(q, step.ids, step.tokens, step.lease);
      ClaimAllAttempts(q, step.ids, step.tokens, step.lease, key);
      ClaimHoldsOnlyNewTokens(q, step.ids, step.tokens, step.lease, token);
    }
    assert key in r.attempts && r.attempts[key].leaseToken == token;
    forall j | 0 <= j < |r.jobs| ensures r.jobs[j].leaseToken != Some(token) {
      if j < |q.jobs| && !step.ClaimStep? {
        assert q.jobs[j].leaseToken != Some(token);
      }
    }
  }

  lemma HoldersAreUnique(q: Queue, i: nat, j: nat, token: Token)
    requires Invariant(q) && i < |q.jobs| && j < |q.jobs|
    requires q.jobs[i].leaseToken == Some(token) && q.jobs[j].leaseToken == Some(token)
    ensures i == j
  {
    assert AttemptsSound(q, i) && AttemptsSound(q, j);
  }

  /** Giving a token up, by completion or by recovery, spends it. */
  lemma ReleaseSpends(q: Queue, step: Step, j: nat, token: Token)
    requires Invariant(q) && Enabled(q, step) && !step.ClaimStep?
    requires j < |q.jobs| && q.jobs[j].leaseToken == Some(token)
    requires Apply(q, step).jobs[j].leaseToken == None
    ensures Spent(Apply(q, step), token)
  {
    var r := Apply(q, step);
    assert AttemptsSound(q, j);
    var key := (j, q.jobs[j].attemptCount);
    assert key in r.attempts && r.attempts[key].leaseToken == token;
    forall i: nat | i < |r.jobs| ensures r.jobs[i].leaseToken != Some(token) {
      if i < |q.jobs| && q.jobs[i].leaseToken == Some(token) {
        HoldersAreUnique(q, i, j, token);
      }
    }
  }

  ghost predicate AcceptedBy(q: Queue, step: Step, token: Token) {
    step.CompleteStep? && step.token == token && Accepts(q, step.id, token, step.report)
  }

  /** How often a run's `complete` calls accept `token`. */
  ghost function AcceptCount(q: Queue, steps: seq<Step>, token: Token): nat
    requires IsRun(q, steps)
    decreases |steps|
  {
    if steps == [] then 0
    else (if AcceptedBy(q, steps[0], token) then 1 else 0) + AcceptCount(Apply(q, steps[0]), steps[1..], token)
  }

  /** Over any run a token is accepted at most once, and never once it is spent. */
  lemma {:induction false} TokenAcceptedAtMostOnce(q: Queue, steps: seq<Step>, token: Token)
    requires Invariant(q) && IsRun(q, steps)
    ensures AcceptCount(q, steps, token) <= if Spent(q, token) then 0 else 1
    decreases |steps|
  {
    if steps != [] {
      var step := steps[0];
      StepKeeps(q, step);
      TokenAcceptedAtMostOnce(Apply(q, step), steps[1..], token);
      if Spent(q, token) {
        SpentStays(q, step, token);
      }
      if AcceptedBy(q, step, token) {
        ReleaseSpends(q, step, step.id, token);
      }
    }
  }

  /** A worker whose lease was recovered can never report again, whatever happens afterwards. */
  lemma RecoveredTokenIsDead(q: Queue, now: Time, j: nat, steps: seq<Step>)
    requires Invariant(q) && j < |q.jobs| && Expired(q.jobs[j], now)
    requires IsRun(RecoverExpiredLeases(q, now), steps)
    ensures q.jobs[j].leaseToken.Some?
    ensures AcceptCount(RecoverExpiredLeases(q, now), steps, q.jobs[j].leaseToken.value) == 0
  {
    assert JobSound(q.jobs[j]);
    var token := q.jobs[j].leaseToken.value;
    var recover := RecoverStep(now);
    StepKeeps(q, recover);
    ReleaseSpends(q, recover, j, token);
    TokenAcceptedAtMostOnce(RecoverExpiredLeases(q, now), steps, token);
  }

  // ---------------------------------------------------------------- jobs nothing can move again

  predicate Finished(job: Job) {
    job.status != Pending && job.status != Running && job.status != FailedRetryable
  }

  /** Retryable in name, with no attempt left. */
  predicate Stranded(job: Job) {
    job.status == FailedRetryable && job.attemptCount >= job.maxAttempts
  }

  lemma SettledStep(q: Queue, step: Step, j: nat)
    requires Invariant(q) && Enabled(q, step) && j < |q.jobs|
    requires Finished(q.jobs[j]) || Stranded(q.jobs[j])
    ensures j < |Apply(q, step).jobs| && Apply(q, step).jobs[j] == q.jobs[j]
  {
    assert JobSound(q.jobs[j]);
    if step.ClaimStep? {
      ClaimAllEffect(q, step.ids, step.tokens, step.lease);
      assert j !in step.ids;
    }
  }

  /** Finished jobs are frozen for good, and so are jobs stranded without attempts. */
  lemma {:induction false} SettledForever(q: Queue, steps: seq<Step>, j: nat)
    requires Invariant(q) && IsRun(q, steps) && j < |q.jobs|
    requires Finished(q.jobs[j]) || Stranded(q.jobs[j])
    ensures j < |Run(q, steps).jobs| && Run(q, steps).jobs[j] == q.jobs[j]
    decreases |steps|
  {
    if steps != [] {
      StepKeeps(q, steps[0]);
      SettledStep(q, steps[0], j);
      SettledForever(Apply(q, steps[0]), steps[1..], j);
    }
  }

  /** A settled live job blocks its identity: no later enqueue of it is ever accepted. */
  lemma SettledBlocksIdentity(q: Queue, steps: seq<Step>, j: nat, job: NewJob, now: Time)
    requires Invariant(q) && IsRun(q, steps) && j < |q.jobs|
    requires (Finished(q.jobs[j]) && Live(q.jobs[j])) || Stranded(q.jobs[j])
    requires job.identity == q.jobs[j].identity
    ensures Enqueue(Run(q, steps), job, now) == Run(q, steps)
  {
    SettledForever(q, steps, j);
    assert Live(Run(q, steps).jobs[j]);
  }

  /** At most one SUCCEEDED and at most one unfinished row per identity. */
  lemma OneLiveRowPerIdentity(q: Queue, steps: seq<Step>, i: nat, j: nat)
    requires Invariant(q) && IsRun(q, steps)
    requires i < |Run(q, steps).jobs| && j < |Run(q, steps).jobs|
    requires Run(q, steps).jobs[i].identity == Run(q, steps).jobs[j].identity
    requires Live(Run(q, steps).jobs[i]) && Live(Run(q, steps).jobs[j])
    ensures i == j
  {
    RunKeeps(q, steps);
  }

  /** Recovery returns an expired job to a claimable state if and only if it has an attempt left. */
  lemma RecoveredIsClaimableIff(q: Queue, now: Time, later: Time, j: nat)
    requires Invariant(q) && j < |q.jobs| && Expired(q.jobs[j], now) && now <= later
    ensures Eligible(RecoverExpiredLeases(q, now).jobs[j], later) <==> q.jobs[j].attemptCount < q.jobs[j].maxAttempts
    ensures Stranded(RecoverExpiredLeases(q, now).jobs[j]) <==> q.jobs[j].attemptCount >= q.jobs[j].maxAttempts
  {
    assert JobSound(q.jobs[j]);
  }

  /** The stranded state is reachable: one attempt allowed, claimed, and its lease left to expire. */
  lemma StrandedIsReachable(job: NewJob)
    requires job.maxAttempts == 1 && job.nextAttemptAt == None
    ensures
      var steps := [EnqueueStep(job, 0), ClaimStep([0], [7], Lease("w", 0, 300), 1), RecoverStep(301)];
      IsRun(EMPTY_QUEUE, steps) && |Run(EMPTY_QUEUE, steps).jobs| == 1 && Stranded(Run(EMPTY_QUEUE, steps).jobs[0])
  {
    var enqueue, claim, recover := EnqueueStep(job, 0), ClaimStep([0], [7], Lease("w", 0, 300), 1), RecoverStep(301);
    var steps := [enqueue, claim, recover];
    var q1 := Apply(EMPTY_QUEUE, enqueue);
    assert q1.jobs == [InsertedJob(job, 0)];
    var q2 := Apply(q1, claim);
    ClaimAllEffect(q1, [0], [7], claim.lease);
    assert [0][0] == 0 && q2.jobs[0] == ClaimedJob(q1.jobs[0], 7, claim.lease);
    var q3 := Apply(q2, recover);
    assert steps[1..] == [claim, recover] && [claim, recover][1..] == [recover] && [recover][1..] == [];
    assert IsRun(q3, []);
    assert IsRun(q2, [recover]) && Run(q2, [recover]) == q3;
    assert IsRun(q1, [claim, recover]) && Run(q1, [claim, recover]) == q3;
  }

  /** `complete` ignores the expiry: as long as nobody recovered the lease, the report of its holder is accepted. */
  lemma ExpiredLeaseStillCompletes(q: Queue, now: Time, j: nat, report: Report)
    requires Invariant(q) && j < |q.jobs| && Expired(q.jobs[j], now) && IsCompletion(report.status)
    ensures q.jobs[j].leaseToken.Some?
    ensures
      var step := CompleteStep(j, q.jobs[j].leaseToken.value, report);
      AcceptedBy(q, step, step.token) && Spent(Apply(q, step), step.token)
      && Apply(q, step).jobs[j].status == FinalStatus(q.jobs[j], report.status)
  {
    assert JobSound(q.jobs[j]);
    var step := CompleteStep(j, q.jobs[j].leaseToken.value, report);
    ReleaseSpends(q, step, j, step.token);
  }

  /** It happens: enqueued, claimed for 300 seconds, expired, and completed 700 seconds later. */
  lemma ExpiredLeaseIsReachable(job: NewJob)
    requires job.maxAttempts == 1 && job.nextAttemptAt == None
    ensures
      var report := Report(Succeeded, None, 1000, 60);
      var steps := [EnqueueStep(job, 0), ClaimStep([0], [7], Lease("w", 0, 300), 1)];
      && IsRun(EMPTY_QUEUE, steps) && |Run(EMPTY_QUEUE, steps).jobs| == 1
      && Expired(Run(EMPTY_QUEUE, steps).jobs[0], 1000)
      && AcceptedBy(Run(EMPTY_QUEUE, steps), CompleteStep(0, 7, report), 7)
  {
    var enqueue, claim := EnqueueStep(job, 0), ClaimStep([0], [7], Lease("w", 0, 300), 1);
    var q1 := Apply(EMPTY_QUEUE, enqueue);
    assert q1.jobs == [InsertedJob(job, 0)];
    var q2 := Apply(q1, claim);
    ClaimAllEffect(q1, [0], [7], claim.lease);
    assert [0][0] == 0 && q2.jobs[0] == ClaimedJob(q1.jobs[0], 7, claim.lease);
    assert [enqueue, claim][1..] == [claim] && [claim][1..] == [];
    assert IsRun(q2, []);
    assert IsRun(q1, [claim]) && Run(q1, [claim]) == q2;
  }

  // ---------------------------------------------------------------- progress

  function Remaining(job: Job): nat {
    Max(0, job.maxAttempts - job.attemptCount)
  }

  /** Claims the rows still allow. */
  function Budget(jobs: seq<Job>): nat {
    if jobs == [] then 0 else Budget(jobs[..|jobs| - 1]) + Remaining(jobs[|jobs| - 1])
  }

  lemma {:induction false} BudgetUpdate(jobs: seq<Job>, i: nat, job: Job)
    requires i < |jobs|
    ensures Budget(jobs[i := job]) == Budget(jobs) - Remaining(jobs[i]) + Remaining(job)
  {
    var last := |jobs| - 1;
    if i == last {
      assert jobs[i := job][..last] == jobs[..last];
    } else {
      assert jobs[i := job][..last] == jobs[..last][i := job];
      BudgetUpdate(jobs[..last], i, job);
    }
  }

  lemma {:induction false} BudgetPointwise(a: seq<Job>, b: seq<Job>)
    requires |a| == |b| && forall i :: 0 <= i < |a| ==> Remaining(a[i]) == Remaining(b[i])
    ensures Budget(a) == Budget(b)
  {
    if a != [] {
      BudgetPointwise(a[..|a| - 1], b[..|b| - 1]);
    }
  }

  lemma {:induction false} ClaimAllSpends(q: Queue, ids: seq<nat>, tokens: seq<Token>, lease: Lease)
    requires |ids| == |tokens| && Distinct(ids)
    requires forall a :: 0 <= a < |ids| ==> ids[a] < |q.jobs| && Eligible(q.jobs[ids[a]], lease.now)
    ensures Budget(ClaimAll(q, ids, tokens, lease).jobs) + |ids| == Budget(q.jobs)
  {
    if ids != [] {
      var last := |ids| - 1;
      var before := ClaimAll(q, ids[..last], tokens[..last], lease);
      ClaimAllSpends(q, ids[..last], tokens[..last], lease);
      ClaimAllEffect(q, ids[..last], tokens[..last], lease);
      assert ids[last] !in ids[..last];
      BudgetUpdate(before.jobs, ids[last], ClaimedJob(before.jobs[ids[last]], tokens[last], lease));
    }
  }

  ghost function ClaimsOf(step: Step): nat {
    if step.ClaimStep? then |step.ids| else 0
  }

  ghost function GrantOf(q: Queue, step: Step): nat {
    if step.EnqueueStep? && !Conflicts(q.jobs, step.job.identity) then Max(0, step.job.maxAttempts) else 0
  }

  lemma StepBalances(q: Queue, step: Step)
    requires Enabled(q, step)
    ensures Budget(Apply(q, step).jobs) + ClaimsOf(step) == Budget(q.jobs) + GrantOf(q, step)
  {
    var r := Apply(q, step);
    match step
    case EnqueueStep(job, now) =>
      if !Conflicts(q.jobs, job.identity) {
        assert r.jobs[..|r.jobs| - 1] == q.jobs;
      }
    case ClaimStep(ids, tokens, lease, _) =>
      ClaimAllSpends(q, ids, tokens, lease);
    case HeartbeatStep(_, _, _, _) =>
      BudgetPointwise(r.jobs, q.jobs);
    case CompleteStep(_, _, _) =>
      BudgetPointwise(r.jobs, q.jobs);
    case RecoverStep(_) =>
      BudgetPointwise(r.jobs, q.jobs);
  }

  ghost function Claims(steps: seq<Step>): nat {
    if steps == [] then 0 else ClaimsOf(steps[0]) + Claims(steps[1..])
  }

  ghost function Grants(q: Queue, steps: seq<Step>): nat
    requires IsRun(q, steps)
    decreases |steps|
  {
    if steps == [] then 0 else GrantOf(q, steps[0]) + Grants(Apply(q, steps[0]), steps[1..])
  }

  /** Conservation: what the rows still allow plus what was claimed is what was there plus what was granted. */
  lemma {:induction false} AttemptBudgetIsConserved(q: Queue, steps: seq<Step>)
    requires IsRun(q, steps)
    ensures Budget(Run(q, steps).jobs) + Claims(steps) == Budget(q.jobs) + Grants(q, steps)
    decreases |steps|
  {
    if steps != [] {
      StepBalances(q, steps[0]);
      AttemptBudgetIsConserved(Apply(q, steps[0]), steps[1..]);
    }
  }

  /** Enqueueing again while the first row is live changes nothing. */
  lemma EnqueueTwice(q: Queue, job: NewJob, first: Time, second: Time)
    ensures Enqueue(Enqueue(q, job, first), job, second) == Enqueue(q, job, first)
  {
    var r := Enqueue(q, job, first);
    if !Conflicts(q.jobs, job.identity) {
      assert Live(r.jobs[|q.jobs|]) && r.jobs[|q.jobs|].identity == job.identity;
    }
  }

  // ---------------------------------------------------------------- the claim order pins the batch

  function Elements(s: seq<nat>): set<nat> {
    set x | x in s
  }

  lemma ElementsOfFront(s: seq<nat>)
    requires s != []
    ensures Elements(s) == Elements(s[..|s| - 1]) + {s[|s| - 1]}
  {
    assert s == s[..|s| - 1] + [s[|s| - 1]];
  }

  lemma {:induction false} ElementsAtMostLength(s: seq<nat>)
    ensures |Elements(s)| <= |s|
  {
    if s != [] {
      ElementsOfFront(s);
      ElementsAtMostLength(s[..|s| - 1]);
    }
  }

  lemma {:induction false} DistinctElements(s: seq<nat>)
    requires Distinct(s)
    ensures |Elements(s)| == |s|
  {
    if s != [] {
      ElementsOfFront(s);
      DistinctElements(s[..|s| - 1]);
      assert s[|s| - 1] !in Elements(s[..|s| - 1]);
    }
  }

  lemma SubsetIsSmaller(a: set<nat>, b: set<nat>)
    requires a <= b
    ensures |a| <= |b|
  {
    assert b == a + (b - a);
  }

  /** Of more distinct numbers than another list has places, one is missing there. */
  lemma SomethingLeftOut(a: seq<nat>, b: seq<nat>) returns (k: nat)
    requires Distinct(a) && |b| < |a|
    ensures k < |a| && a[k] !in b
  {
    DistinctElements(a);
    ElementsAtMostLength(b);
    if Elements(a) <= Elements(b) {
      SubsetIsSmaller(Elements(a), Elements(b));
      assert false;
    }
    var x :| x in Elements(a) && x !in Elements(b);
    k :| 0 <= k < |a| && a[k] == x;
  }

  /** Any two admissible answers have the same length and agree on priority and age, position by position. */
  lemma TopBatchIsPinned(jobs: seq<Job>, x: seq<nat>, y: seq<nat>, now: Time, batchSize: nat, a: nat)
    requires IsTopBatch(jobs, x, now, batchSize) && IsTopBatch(jobs, y, now, batchSize)
    ensures |x| == |y|
    ensures a < |x| ==> jobs[x[a]].priority == jobs[y[a]].priority && jobs[x[a]].createdAt == jobs[y[a]].createdAt
  {
    NotShorter(jobs, x, y, now, batchSize);
    NotShorter(jobs, y, x, now, batchSize);
    if a < |x| {
      NotBefore(jobs, x, y, now, batchSize, a);
      NotBefore(jobs, y, x, now, batchSize, a);
    }
  }

  lemma NotShorter(jobs: seq<Job>, x: seq<nat>, y: seq<nat>, now: Time, batchSize: nat)
    requires IsTopBatch(jobs, x, now, batchSize) && IsTopBatch(jobs, y, now, batchSize)
    ensures |y| <= |x|
  {
    if |x| < |y| {
      var k := SomethingLeftOut(y, x);
      assert false;
    }
  }

  lemma NotBefore(jobs: seq<Job>, x: seq<nat>, y: seq<nat>, now: Time, batchSize: nat, a: nat)
    requires IsTopBatch(jobs, x, now, batchSize) && IsTopBatch(jobs, y, now, batchSize)
    requires a < |x| && a < |y|
    ensures !Before(jobs[x[a]], jobs[y[a]])
  {
    var k := SomethingLeftOut(x[..a + 1], y[..a]);
    var id := x[k];
    assert x[..a + 1][k] == id;
    assert k < a ==> !Before(jobs[x[a]], jobs[id]);
    assert forall b :: 0 <= b < a ==> y[b] in y[..a];
    if id in y {
      var b :| 0 <= b < |y| && y[b] == id;
      assert a <= b;
    }
  }
}
