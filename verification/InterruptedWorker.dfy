/** The worker loop while everybody else keeps working: what holds however its two transactions are interleaved. */
module InterruptedWorker {
  import opened Prelude
  import opened Schema
  import opened JobQueue
  import opened Normalization
  import opened Engine
  import opened Worker
  import L = LeaseProtocol

  /**
   * One turn of the loop: the claim, whatever others do before the job is finished, the second transaction, and
   * whatever others do before the next turn.
   */
  datatype Round = Round(
    ids: seq<nat>, token: Token, lease: Lease, between: seq<WorkStep>,
    via: DiscoveryMethod, now: Time, at: Time, after: seq<WorkStep>)

  function ClaimOf(r: Round): WorkStep {
    QueueWork(L.ClaimStep(r.ids, if r.ids == [] then [] else [r.token], r.lease, 1))
  }

  /** A NORMALIZE job was claimed, so the turn has a second transaction. */
  predicate HasJob(q: Queue, r: Round) {
    r.ids != [] && r.ids[0] < |q.jobs| && q.jobs[r.ids[0]].identity.jobType == Normalize
  }

  function FinishOf(r: Round): WorkStep
    requires r.ids != []
  {
    Finish(r.ids[0], r.token, r.via, r.now, r.at)
  }

  // ---------------------------------------------------------------- the queue under any work

  /** The queue transaction behind a piece of work; inventory transactions have none. */
  ghost function QueueStepOf(s: System, work: WorkStep): Option<L.Step>
    requires ForeignKeys(s.inventory) && Allowed(s, work)
  {
    match work
    case QueueWork(step) => Some(step)
    case InventoryWork(_) => None
    case Finish(job, token, via, now, at) =>
      var o := s.queue.jobs[job].identity.inputHash;
      Some(L.CompleteStep(job, token, ReportOf(ProcessObservation(s.inventory, o, via, now), at)))
  }

  lemma QueueEffect(s: System, work: WorkStep)
    requires ForeignKeys(s.inventory) && Allowed(s, work)
    ensures QueueStepOf(s, work).None? ==> Perform(s, work).queue == s.queue
    ensures QueueStepOf(s, work).Some? ==>
              L.Enabled(s.queue, QueueStepOf(s, work).value)
              && Perform(s, work).queue == L.Apply(s.queue, QueueStepOf(s, work).value)
  {
    hide ForeignKeys, ProcessObservation, Normalized, Complete;
  }

  lemma WorkKeepsLeases(s: System, work: WorkStep)
    requires ForeignKeys(s.inventory) && Allowed(s, work) && L.Invariant(s.queue)
    ensures L.Invariant(Perform(s, work).queue)
  {
    hide ForeignKeys, Perform, Allowed, QueueStepOf, L.Invariant, L.Enabled, L.Apply;
    QueueEffect(s, work);
    if QueueStepOf(s, work).Some? {
      L.StepKeeps(s.queue, QueueStepOf(s, work).value);
    }
  }

  /** The lease is with job `j`, or gone for good. */
  ghost predicate HeldOrSpent(q: Queue, j: nat, token: Token) {
    (j < |q.jobs| && q.jobs[j].leaseToken == Some(token)) || L.Spent(q, token)
  }

  lemma StepKeepsHeldOrSpent(q: Queue, step: L.Step, j: nat, token: Token)
    requires L.Invariant(q) && L.Enabled(q, step) && HeldOrSpent(q, j, token)
    ensures HeldOrSpent(L.Apply(q, step), j, token)
  {
    hide L.Invariant, L.Spent;
    if L.Spent(q, token) {
      L.SpentStays(q, step, token);
    } else if step.ClaimStep? {
      assert j !in step.ids by { HoldersAreNotEligible(q, j); }
      L.ClaimAllEffect(q, step.ids, step.tokens, step.lease);
    } else if L.Apply(q, step).jobs[j].leaseToken == None {
      L.ReleaseSpends(q, step, j, token);
    }
  }

  lemma HoldersAreNotEligible(q: Queue, j: nat)
    requires L.Invariant(q) && j < |q.jobs| && q.jobs[j].leaseToken.Some?
    ensures forall now: Time :: !Eligible(q.jobs[j], now)
  {
    assert L.JobSound(q.jobs[j]);
  }

  lemma {:induction false} WorksKeepHeldOrSpent(s: System, works: seq<WorkStep>, j: nat, token: Token)
    requires ForeignKeys(s.inventory) && IsWork(s, works) && L.Invariant(s.queue) && HeldOrSpent(s.queue, j, token)
    ensures L.Invariant(Work(s, works).queue) && HeldOrSpent(Work(s, works).queue, j, token)
    decreases |works|
  {
    hide ForeignKeys, Perform, Allowed, QueueStepOf, L.Invariant, L.Enabled, L.Apply, HeldOrSpent;
    if works != [] {
      QueueEffect(s, works[0]);
      WorkKeepsLeases(s, works[0]);
      if QueueStepOf(s, works[0]).Some? {
        StepKeepsHeldOrSpent(s.queue, QueueStepOf(s, works[0]).value, j, token);
      }
      WorksKeepHeldOrSpent(Perform(s, works[0]), works[1..], j, token);
    }
  }

  lemma {:induction false} WorksKeepSpent(s: System, works: seq<WorkStep>, token: Token)
    requires ForeignKeys(s.inventory) && IsWork(s, works) && L.Invariant(s.queue) && L.Spent(s.queue, token)
    ensures L.Invariant(Work(s, works).queue) && L.Spent(Work(s, works).queue, token)
    decreases |works|
  {
    hide ForeignKeys, Perform, Allowed, QueueStepOf, L.Invariant, L.Enabled, L.Apply, L.Spent;
    if works != [] {
      QueueEffect(s, works[0]);
      WorkKeepsLeases(s, works[0]);
      if QueueStepOf(s, works[0]).Some? {
        L.SpentStays(s.queue, QueueStepOf(s, works[0]).value, token);
      }
      WorksKeepSpent(Perform(s, works[0]), works[1..], token);
    }
  }

  lemma {:induction false} WorksKeepLeases(s: System, works: seq<WorkStep>)
    requires ForeignKeys(s.inventory) && IsWork(s, works) && L.Invariant(s.queue)
    ensures L.Invariant(Work(s, works).queue)
    decreases |works|
  {
    hide ForeignKeys, Perform, Allowed, L.Invariant;
    if works != [] {
      WorkKeepsLeases(s, works[0]);
      WorksKeepLeases(Perform(s, works[0]), works[1..]);
    }
  }

  // ---------------------------------------------------------------- one turn

  lemma ClaimHolds(s: System, r: Round)
    requires ForeignKeys(s.inventory) && L.Invariant(s.queue) && Allowed(s, ClaimOf(r)) && HasJob(s.queue, r)
    ensures HeldOrSpent(Perform(s, ClaimOf(r)).queue, r.ids[0], r.token)
  {
    hide ForeignKeys, L.Invariant, L.Spent;
    var tokens := [r.token];
    assert |r.ids| == 1;
    L.ClaimAllEffect(s.queue, r.ids, tokens, r.lease);
    assert tokens[0] == r.token;
  }

  /**
   * Whatever is interleaved between its two transactions, recoveries and second claims of the job included: the second
   * transaction is always possible, and after it the worker's token is spent.
   */
  lemma InterruptedTurn(s: System, r: Round)
    requires ForeignKeys(s.inventory) && L.Invariant(s.queue) && Allowed(s, ClaimOf(r)) && HasJob(s.queue, r)
    requires IsWork(Perform(s, ClaimOf(r)), r.between)
    ensures
      var before := Work(Perform(s, ClaimOf(r)), r.between);
      && Allowed(before, FinishOf(r))
      && L.Invariant(Perform(before, FinishOf(r)).queue) && L.Spent(Perform(before, FinishOf(r)).queue, r.token)
  {
    hide ForeignKeys, Perform, L.Invariant, L.Spent, IsWork, Work, L.Enabled;
    var claimed := Perform(s, ClaimOf(r));
    var before := Work(claimed, r.between);
    var finish := FinishOf(r);
    WorkKeepsLeases(s, ClaimOf(r));
    ClaimHolds(s, r);
    IdentityStays(s, ClaimOf(r), r.ids[0]);
    IdentityStaysInRuns(claimed, r.between, r.ids[0]);
    WorksKeepHeldOrSpent(claimed, r.between, r.ids[0], r.token);
    WorkKeepsLeases(before, finish);
    FinishSpends(before, finish);
  }

  lemma FinishSpends(s: System, finish: WorkStep)
    requires ForeignKeys(s.inventory) && finish.Finish? && Allowed(s, finish) && L.Invariant(s.queue)
    requires HeldOrSpent(s.queue, finish.job, finish.token)
    ensures L.Spent(Perform(s, finish).queue, finish.token)
  {
    hide ForeignKeys, ProcessObservation, Normalized, L.Invariant, L.Spent;
    QueueEffect(s, finish);
    var step := QueueStepOf(s, finish).value;
    if L.Spent(s.queue, finish.token) {
      L.SpentStays(s.queue, step, finish.token);
    } else {
      L.ReleaseSpends(s.queue, step, finish.job, finish.token);
    }
  }

  // ---------------------------------------------------------------- the whole loop

  /** The work of a turn, others' included. */
  function WorksOf(q: Queue, r: Round): seq<WorkStep> {
    [ClaimOf(r)] + (if HasJob(q, r) then r.between + [FinishOf(r)] else []) + r.after
  }

  ghost predicate IsDrain(s: System, rounds: seq<Round>)
    requires ForeignKeys(s.inventory)
    decreases |rounds|
  {
    rounds == []
    || (IsWork(s, WorksOf(s.queue, rounds[0])) && IsDrain(Work(s, WorksOf(s.queue, rounds[0])), rounds[1..]))
  }

  ghost function Drained(s: System, rounds: seq<Round>): (r: System)
    requires ForeignKeys(s.inventory) && IsDrain(s, rounds)
    ensures ForeignKeys(r.inventory)
    decreases |rounds|
  {
    if rounds == [] then s else Drained(Work(s, WorksOf(s.queue, rounds[0])), rounds[1..])
  }

  /** The tokens of the turns that had a NORMALIZE job. */
  ghost function UsedTokens(s: System, rounds: seq<Round>): set<Token>
    requires ForeignKeys(s.inventory) && IsDrain(s, rounds)
    decreases |rounds|
  {
    if rounds == [] then {}
    else (if HasJob(s.queue, rounds[0]) then {rounds[0].token} else {})
         + UsedTokens(Work(s, WorksOf(s.queue, rounds[0])), rounds[1..])
  }

  lemma {:induction false} WorkSplits(s: System, first: seq<WorkStep>, second: seq<WorkStep>)
    requires ForeignKeys(s.inventory) && IsWork(s, first + second)
    ensures IsWork(s, first) && IsWork(Work(s, first), second)
    ensures Work(s, first + second) == Work(Work(s, first), second)
    decreases |first|
  {
    hide ForeignKeys, Perform, Allowed;
    if first == [] {
      assert first + second == second;
    } else {
      assert (first + second)[1..] == first[1..] + second;
      WorkSplits(Perform(s, (first + second)[0]), first[1..], second);
    }
  }

  lemma OneWork(s: System, work: WorkStep)
    requires ForeignKeys(s.inventory) && IsWork(s, [work])
    ensures Allowed(s, work) && Work(s, [work]) == Perform(s, work)
  {
    hide ForeignKeys, Perform, Allowed;
    assert [work][1..] == [];
  }

  lemma TurnSpends(s: System, r: Round)
    requires ForeignKeys(s.inventory) && L.Invariant(s.queue) && IsWork(s, WorksOf(s.queue, r)) && HasJob(s.queue, r)
    ensures L.Spent(Work(s, WorksOf(s.queue, r)).queue, r.token)
  {
    hide ForeignKeys, Perform, Allowed, L.Invariant, L.Spent, IsWork, Work, ClaimOf, FinishOf;
    var head := [ClaimOf(r)] + (r.between + [FinishOf(r)]);
    WorkSplits(s, head, r.after);
    WorkSplits(s, [ClaimOf(r)], r.between + [FinishOf(r)]);
    OneWork(s, ClaimOf(r));
    var claimed := Perform(s, ClaimOf(r));
    WorkSplits(claimed, r.between, [FinishOf(r)]);
    OneWork(Work(claimed, r.between), FinishOf(r));
    InterruptedTurn(s, r);
    WorksKeepSpent(Work(s, head), r.after, r.token);
  }

  /**
   * However the loop is interrupted, the lease invariant holds and every token it worked under is spent: held
   * by no job.
   */
  lemma {:induction false} DrainSpendsItsTokens(s: System, rounds: seq<Round>)
    requires ForeignKeys(s.inventory) && L.Invariant(s.queue) && IsDrain(s, rounds)
    ensures L.Invariant(Drained(s, rounds).queue)
    ensures forall token :: token in UsedTokens(s, rounds) ==> L.Spent(Drained(s, rounds).queue, token)
    decreases |rounds|
  {
    hide ForeignKeys, L.Invariant, L.Spent, IsWork, Work, HasJob, WorksOf;
    if rounds != [] {
      var next := Work(s, WorksOf(s.queue, rounds[0]));
      WorksKeepLeases(s, WorksOf(s.queue, rounds[0]));
      DrainSpendsItsTokens(next, rounds[1..]);
      if HasJob(s.queue, rounds[0]) {
        TurnSpends(s, rounds[0]);
        SpentOverDrain(next, rounds[1..], rounds[0].token);
      }
    }
  }

  lemma {:induction false} SpentOverDrain(s: System, rounds: seq<Round>, token: Token)
    requires ForeignKeys(s.inventory) && L.Invariant(s.queue) && IsDrain(s, rounds) && L.Spent(s.queue, token)
    ensures L.Spent(Drained(s, rounds).queue, token)
    decreases |rounds|
  {
    hide ForeignKeys, L.Invariant, L.Spent, IsWork, Work, HasJob, WorksOf;
    if rounds != [] {
      WorksKeepSpent(s, WorksOf(s.queue, rounds[0]), token);
      SpentOverDrain(Work(s, WorksOf(s.queue, rounds[0])), rounds[1..], token);
    }
  }

  // ---------------------------------------------------------------- a job of another type

  /** With one waiting job of another type, the loop's claim leases it and the loop leaves it behind. */
  lemma OtherTypeIsLeftLeased(job: NewJob, token: Token, lease: Lease, queuedAt: Time)
    requires job.identity.jobType != Normalize && job.maxAttempts > 0 && job.nextAttemptAt == None
    requires queuedAt <= lease.now
    ensures
      var q := Enqueue(EMPTY_QUEUE, job, queuedAt);
      forall ids :: IsTopBatch(q.jobs, ids, lease.now, 1) ==>
        |ids| <= 1 && (forall a :: 0 <= a < |ids| ==> ids[a] < |q.jobs|)
        && StuckWith(ClaimAll(q, ids, [token][..|ids|], lease), 0, token)
  {
    var q := Enqueue(EMPTY_QUEUE, job, queuedAt);
    assert q.jobs == [InsertedJob(job, queuedAt)] && Eligible(q.jobs[0], lease.now);
    forall ids | IsTopBatch(q.jobs, ids, lease.now, 1)
      ensures |ids| <= 1 && (forall a :: 0 <= a < |ids| ==> ids[a] < |q.jobs|)
           && StuckWith(ClaimAll(q, ids, [token][..|ids|], lease), 0, token)
    {
      var only: nat := 0;
      assert only in ids || |ids| == 1;
      assert ids == [only];
      L.ClaimAllEffect(q, ids, [token][..|ids|], lease);
      assert [token][..|ids|][0] == token && ids[0] == 0;
    }
  }
}
