/** An acquisition call is a run of the inventory's steps and a run of the queue's, so what those keep it keeps. */
module AcquisitionTrace {
  import opened Prelude
  import opened Schema
  import opened JobQueue
  import opened Acquisition
  import opened AcquisitionRuns
  import E = Engine
  import L = LeaseProtocol

  // ---------------------------------------------------------------- the inventory's side

  function ObserveSteps(rows: seq<Observation>): seq<E.Step> {
    seq(|rows|, a requires 0 <= a < |rows| => E.Observe(rows[a]))
  }

  lemma {:induction false} ObservesAppend(inv: Inventory, rows: seq<Observation>)
    requires ForeignKeys(inv) && forall a :: 0 <= a < |rows| ==> rows[a].run < |inv.runs|
    ensures E.Run(inv, ObserveSteps(rows)) == inv.(observations := inv.observations + rows)
  {
    hide ForeignKeys;
    if rows == [] {
      assert inv.observations + rows == inv.observations;
    } else {
      var front, last := rows[..|rows| - 1], rows[|rows| - 1];
      ObservesAppend(inv, front);
      E.RunSnoc(inv, ObserveSteps(front), E.Observe(last));
      assert ObserveSteps(rows) == ObserveSteps(front) + [E.Observe(last)];
      assert inv.observations + front + [last] == inv.observations + rows;
    }
  }

  // ---------------------------------------------------------------- the queue's side

  function EnqueueSteps(items: seq<Item>, base: nat, ctx: Context): seq<L.Step>
    requires Captured(items)
  {
    seq(|items|, a requires 0 <= a < |items| => L.EnqueueStep(NormalizeJob(base + a, ctx), items[a].capture.value.at))
  }

  /** Every NORMALIZE job names an observation below `base`. */
  predicate NamesBelow(jobs: seq<Job>, base: nat) {
    forall j :: 0 <= j < |jobs| && jobs[j].identity.jobType == Normalize ==> jobs[j].identity.inputHash < base
  }

  lemma {:induction false} EnqueuesAppend(q: Queue, items: seq<Item>, base: nat, ctx: Context)
    requires Captured(items) && NamesBelow(q.jobs, base)
    ensures L.IsRun(q, EnqueueSteps(items, base, ctx))
    ensures L.Run(q, EnqueueSteps(items, base, ctx)) == q.(jobs := q.jobs + JobsOf(items, base, ctx))
    decreases |items|
  {
    var steps := EnqueueSteps(items, base, ctx);
    if items == [] {
      assert q.jobs + JobsOf(items, base, ctx) == q.jobs;
    } else {
      var job := NormalizeJob(base, ctx);
      var next := q.(jobs := q.jobs + [InsertedJob(job, items[0].capture.value.at)]);
      assert !Conflicts(q.jobs, job.identity);
      assert L.Apply(q, steps[0]) == next;
      EnqueuesAppend(next, items[1..], base + 1, ctx);
      assert steps[1..] == EnqueueSteps(items[1..], base + 1, ctx);
      assert next.jobs + JobsOf(items[1..], base + 1, ctx) == q.jobs + JobsOf(items, base, ctx);
    }
  }

  // ---------------------------------------------------------------- the call

  /** The source run a call works under: the one joined, or a new row. */
  function RunId(inv: Inventory, joined: Option<nat>): nat {
    if joined.Some? then joined.value else |inv.runs|
  }

  function OpenSteps(source: nat, joined: Option<nat>, now: Time): seq<E.Step> {
    if joined.Some? then [] else [E.OpenRun(source, now)]
  }

  /** The run rows once the source run is open. */
  function OpenRuns(inv: Inventory, source: nat, joined: Option<nat>, now: Time): seq<SourceRun> {
    if joined.Some? then inv.runs else inv.runs + [SourceRun(source, now, SourceRunStatus.Pending, None)]
  }

  lemma Opens(inv: Inventory, source: nat, joined: Option<nat>, now: Time)
    requires ForeignKeys(inv)
    ensures E.Run(inv, OpenSteps(source, joined, now)) == inv.(runs := OpenRuns(inv, source, joined, now))
  {
    hide ForeignKeys;
    if joined.None? {
      E.RunSnoc(inv, [], E.OpenRun(source, now));
      assert [] + [E.OpenRun(source, now)] == [E.OpenRun(source, now)];
    }
  }

  /** The steps of one call: open unless joined, store each picked row, close with the verdict. */
  function CallSteps(
      inv: Inventory, store: Store, source: nat, joined: Option<nat>, refreshRun: nat, preflight: Preflight,
      parts: seq<Partition>, via: DiscoveryMethod, now: Time): seq<E.Step>
  {
    var ctx := Context(source, RunId(inv, joined), refreshRun);
    var summary := Summarized(Swept(store, preflight, parts, ctx), ctx.run, preflight, via);
    OpenSteps(source, joined, now)
    + ObserveSteps(Rows(StoredItems(store, preflight, parts, ctx), ctx))
    + [E.CloseRun(ctx.run, summary.status, via)]
  }

  lemma CallObserves(store: Store, preflight: Preflight, parts: seq<Partition>, ctx: Context)
    ensures Swept(store, preflight, parts, ctx).progress.store.observations
         == store.observations + Rows(StoredItems(store, preflight, parts, ctx), ctx)
    ensures QueueRefers(store) ==>
      Swept(store, preflight, parts, ctx).progress.store.queue.jobs
        == store.queue.jobs + JobsOf(StoredItems(store, preflight, parts, ctx), |store.observations|, ctx)
      && Swept(store, preflight, parts, ctx).progress.store.queue.attempts == store.queue.attempts
  {
    hide TakePartitions, MidPageStops, Subsequence, QueueRefers, DistinctIdentities, NewOnes, Attempts, DoneAfter;
    if preflight == Preflight.Blocked {
      assert store.observations + Rows([], ctx) == store.observations;
      assert store.queue.jobs + JobsOf([], |store.observations|, ctx) == store.queue.jobs;
    } else {
      SweepStores(Start(store, preflight), parts, ctx);
    }
  }

  /** The inventory after a call is the inventory after its steps: one verdict, and the stored rows in order. */
  lemma CallIsARun(
      inv: Inventory, store: Store, source: nat, joined: Option<nat>, refreshRun: nat, preflight: Preflight,
      parts: seq<Partition>, via: DiscoveryMethod, now: Time)
    requires ForeignKeys(inv) && store.observations == inv.observations
    requires joined.Some? ==> joined.value < |inv.runs|
    ensures
      var run := RunId(inv, joined);
      var swept := Swept(store, preflight, parts, Context(source, run, refreshRun));
      var summary := Summarized(swept, run, preflight, via);
      var rows := OpenRuns(inv, source, joined, now);
      E.Run(inv, CallSteps(inv, store, source, joined, refreshRun, preflight, parts, via, now))
        == inv.(observations := swept.progress.store.observations,
                runs := rows[run := rows[run].(status := summary.status, gatePassed := Some(summary.gatePassed))])
  {
    hide ForeignKeys, Swept, StoredItems;
    var run := RunId(inv, joined);
    var ctx := Context(source, run, refreshRun);
    var picks := StoredItems(store, preflight, parts, ctx);
    var rows := OpenRuns(inv, source, joined, now);
    var withRun := inv.(runs := rows);
    var open, observe := OpenSteps(source, joined, now), ObserveSteps(Rows(picks, ctx));
    CallObserves(store, preflight, parts, ctx);
    Opens(inv, source, joined, now);
    E.RunConcat(inv, open, observe);
    ObservesAppend(withRun, Rows(picks, ctx));
    var summary := Summarized(Swept(store, preflight, parts, ctx), run, preflight, via);
    E.RunSnoc(inv, open + observe, E.CloseRun(run, summary.status, via));
  }

  /** The queue after a call is the queue after one enqueue per stored row, each accepted. */
  lemma CallEnqueues(store: Store, preflight: Preflight, parts: seq<Partition>, ctx: Context)
    requires QueueRefers(store)
    ensures
      var steps := EnqueueSteps(StoredItems(store, preflight, parts, ctx), |store.observations|, ctx);
      && L.IsRun(store.queue, steps)
      && L.Run(store.queue, steps) == Swept(store, preflight, parts, ctx).progress.store.queue
  {
    hide Swept, StoredItems;
    CallObserves(store, preflight, parts, ctx);
    EnqueuesAppend(store.queue, StoredItems(store, preflight, parts, ctx), |store.observations|, ctx);
  }

  /** So an acquisition call keeps every foreign key and the lease invariant. */
  lemma CallKeepsSound(
      inv: Inventory, store: Store, source: nat, joined: Option<nat>, refreshRun: nat, preflight: Preflight,
      parts: seq<Partition>, via: DiscoveryMethod, now: Time)
    requires ForeignKeys(inv) && store.observations == inv.observations
    requires joined.Some? ==> joined.value < |inv.runs|
    requires QueueRefers(store) && L.Invariant(store.queue)
    ensures
      var run := RunId(inv, joined);
      var swept := Swept(store, preflight, parts, Context(source, run, refreshRun));
      var summary := Summarized(swept, run, preflight, via);
      var rows := OpenRuns(inv, source, joined, now);
      && ForeignKeys(inv.(observations := swept.progress.store.observations,
           runs := rows[run := rows[run].(status := summary.status, gatePassed := Some(summary.gatePassed))]))
      && L.Invariant(swept.progress.store.queue)
  {
    hide Swept, StoredItems, L.Invariant;
    var ctx := Context(source, RunId(inv, joined), refreshRun);
    CallIsARun(inv, store, source, joined, refreshRun, preflight, parts, via, now);
    CallEnqueues(store, preflight, parts, ctx);
    L.RunKeeps(store.queue, EnqueueSteps(StoredItems(store, preflight, parts, ctx), |store.observations|, ctx));
  }
}
