/** One source's part in a refresh: checkpointed partitions, deduplication, failure isolation, and the health gate. */
module Acquisition {
  import opened Prelude
  import opened Schema
  import opened JobQueue

  const NORMALIZE_DEPENDENCY_VERSION := "phase3-skeleton-1"

  // ---------------------------------------------------------------- what the adapter answers

  /** A fetched and extracted item; `at` is the clock when it is stored. */
  datatype Capture = Capture(row: Observation, at: Time)

  /** A discovered item; fetching or extracting it may raise, which is `None`. */
  datatype Item = Item(nativeId: Option<string>, url: string, capture: Option<Capture>)

  datatype Discovery = DiscoveryRaises | Page(items: seq<Item>, degraded: bool)

  datatype Partition = Partition(key: string, discovery: Discovery)

  datatype Preflight = Ok | Degraded | Blocked

  /** An empty native id is no native id. */
  function Identity(item: Item): string {
    if item.nativeId.Some? && item.nativeId.value != "" then item.nativeId.value else item.url
  }

  // ---------------------------------------------------------------- state

  /** Completed checkpoints, with the number of items their page held. */
  datatype Store = Store(observations: seq<Observation>, queue: Queue, checkpoints: map<(nat, string), nat>)

  datatype Tally = Tally(
    seen: set<string>, discovered: nat, persistedNew: nat, duplicatesSkipped: nat, jobsEnqueued: nat)

  datatype Progress = Progress(store: Store, tally: Tally)

  const NOTHING_YET := Tally({}, 0, 0, 0, 0)

  /** Which source, which source run, which refresh run. */
  datatype Context = Context(source: nat, run: nat, refreshRun: nat)

  // ---------------------------------------------------------------- storing one observation

  /** The two partial unique indexes of the observation table. */
  predicate SameKey(a: Observation, b: Observation) {
    && a.source == b.source && a.contentHash == b.contentHash && a.observedAt == b.observedAt
    && a.nativeId == b.nativeId
    && (a.nativeId.None? ==> a.url == b.url)
  }

  predicate Known(observations: seq<Observation>, row: Observation) {
    exists o :: 0 <= o < |observations| && SameKey(observations[o], row)
  }

  function Stamped(row: Observation, ctx: Context): Observation {
    row.(source := ctx.source, run := ctx.run)
  }

  function NormalizeIdentity(o: nat): JobIdentity {
    JobIdentity(Normalize, None, o, NORMALIZE_DEPENDENCY_VERSION)
  }

  function NormalizeJob(o: nat, ctx: Context): NewJob {
    NewJob(NormalizeIdentity(o), Some(ctx.refreshRun), 10, 3, None)
  }

  /** Insert-if-absent, and a NORMALIZE job for a row that was inserted. */
  function Persist(p: Progress, capture: Capture, ctx: Context): Progress {
    var row := Stamped(capture.row, ctx);
    if Known(p.store.observations, row) then
      p.(tally := p.tally.(duplicatesSkipped := p.tally.duplicatesSkipped + 1))
    else
      var job := NormalizeJob(|p.store.observations|, ctx);
      var enqueued := !Conflicts(p.store.queue.jobs, job.identity);
      Progress(
        p.store.(observations := p.store.observations + [row], queue := Enqueue(p.store.queue, job, capture.at)),
        p.tally.(persistedNew := p.tally.persistedNew + 1,
                 jobsEnqueued := p.tally.jobsEnqueued + if enqueued then 1 else 0))
  }

  // ---------------------------------------------------------------- pages and partitions

  /** The item is new to this run and its fetch fails. */
  predicate Raises(p: Progress, item: Item) {
    Identity(item) !in p.tally.seen && item.capture.None?
  }

  function TakeItem(p: Progress, item: Item, ctx: Context): Progress {
    if Identity(item) in p.tally.seen then
      p.(tally := p.tally.(duplicatesSkipped := p.tally.duplicatesSkipped + 1))
    else
      var marked := p.(tally := p.tally.(seen := p.tally.seen + {Identity(item)}));
      match item.capture
      case None => marked
      case Some(capture) => Persist(marked, capture, ctx)
  }

  /** The items of one page, up to the first that raises; the answer says whether the page was finished. */
  function TakeItems(p: Progress, items: seq<Item>, ctx: Context): (Progress, bool)
    decreases |items|
  {
    if items == [] then (p, true)
    else if Raises(p, items[0]) then (TakeItem(p, items[0], ctx), false)
    else TakeItems(TakeItem(p, items[0], ctx), items[1..], ctx)
  }

  datatype PartitionOutcome = Done(degraded: bool) | Aborted

  function Checkpointed(p: Progress, key: string, items: nat, ctx: Context): Progress {
    p.(store := p.store.(checkpoints := p.store.checkpoints[(ctx.run, key) := items]))
  }

  function Counted(p: Progress, items: nat): Progress {
    p.(tally := p.tally.(discovered := p.tally.discovered + items))
  }

  function TakePartition(p: Progress, part: Partition, ctx: Context): (Progress, PartitionOutcome) {
    if (ctx.run, part.key) in p.store.checkpoints then
      (p, Done(false))
    else
      match part.discovery
      case DiscoveryRaises => (p, Aborted)
      case Page(items, degraded) =>
        var (taken, finished) := TakeItems(Counted(p, |items|), items, ctx);
        if finished then (Checkpointed(taken, part.key, |items|, ctx), Done(degraded)) else (taken, Aborted)
  }

  /** The partition loop: a failing partition is counted and the next one is tried. */
  datatype Sweep = Sweep(progress: Progress, completed: nat, failed: nat, degraded: bool)

  function TakeOne(s: Sweep, part: Partition, ctx: Context): Sweep {
    var (after, outcome) := TakePartition(s.progress, part, ctx);
    match outcome
    case Done(degraded) => Sweep(after, s.completed + 1, s.failed, s.degraded || degraded)
    case Aborted => Sweep(after, s.completed, s.failed + 1, s.degraded)
  }

  function TakePartitions(s: Sweep, parts: seq<Partition>, ctx: Context): Sweep
    decreases |parts|
  {
    if parts == [] then s else TakePartitions(TakeOne(s, parts[0], ctx), parts[1..], ctx)
  }

  // ---------------------------------------------------------------- the whole run

  datatype RunSummary = RunSummary(
    run: nat, status: SourceRunStatus, gatePassed: bool, tally: Tally, completed: nat, failed: nat)

  function StatusOf(completed: nat, failed: nat, degraded: bool): SourceRunStatus {
    if failed > 0 && completed == 0 then SourceRunStatus.Failed
    else if failed > 0 || degraded then SourceRunStatus.Degraded
    else SourceRunStatus.Healthy
  }

  function Start(store: Store, preflight: Preflight): Sweep {
    Sweep(Progress(store, NOTHING_YET), 0, 0, preflight == Preflight.Degraded)
  }

  function Swept(store: Store, preflight: Preflight, parts: seq<Partition>, ctx: Context): Sweep {
    if preflight == Preflight.Blocked then Start(store, preflight)
    else TakePartitions(Start(store, preflight), parts, ctx)
  }

  function Summarized(s: Sweep, run: nat, preflight: Preflight, via: DiscoveryMethod): RunSummary {
    var status := if preflight == Preflight.Blocked then SourceRunStatus.Blocked
                  else StatusOf(s.completed, s.failed, s.degraded);
    RunSummary(run, status, GatePasses(status, via), s.progress.tally, s.completed, s.failed)
  }

  // ---------------------------------------------------------------- the runner object

  /** The counters of one call and the identities it has seen, shared by its partitions; every call starts with none. */
  class RunCounters {
    var seen: set<string>
    var discovered: nat
    var persistedNew: nat
    var duplicatesSkipped: nat
    var jobsEnqueued: nat

    ghost function Value(): Tally
      reads this
    {
      Tally(seen, discovered, persistedNew, duplicatesSkipped, jobsEnqueued)
    }

    constructor ()
      ensures Value() == NOTHING_YET
    {
      seen := {};
      discovered, persistedNew, duplicatesSkipped, jobsEnqueued := 0, 0, 0, 0;
    }
  }

  class AcquisitionRunner {
    const db: Database
    const queue: LeasedQueue
    var checkpoints: map<(nat, string), nat>
    /** The source run of a refresh run and a source. */
    var sourceRuns: map<(nat, nat), nat>

    constructor (db: Database, queue: LeasedQueue)
      ensures this.db == db && this.queue == queue && checkpoints == map[] && sourceRuns == map[]
    {
      this.db, this.queue := db, queue;
      checkpoints, sourceRuns := map[], map[];
    }

    ghost function StoreState(): Store
      reads this, db`observations, queue
    {
      Store(db.observations, queue.State(), checkpoints)
    }

    ghost predicate RunsRefer()
      reads this`sourceRuns, db`runs
    {
      forall key :: key in sourceRuns ==> sourceRuns[key] < |db.runs|
    }

    method InsertIdempotent(row: Observation) returns (id: Option<nat>)
      modifies db`observations
      ensures id == if Known(old(db.observations), row) then None else Some(|old(db.observations)|)
      ensures db.observations == if id.None? then old(db.observations) else old(db.observations) + [row]
    {
      if Known(db.observations, row) {
        return None;
      }
      id := Some(|db.observations|);
      db.observations := db.observations + [row];
    }

    /** One item of a page; `false` when fetching it raised. */
    method CaptureItem(item: Item, ctx: Context, counters: RunCounters) returns (ok: bool)
      modifies db`observations, queue, counters
      ensures Progress(StoreState(), counters.Value())
           == TakeItem(old(Progress(StoreState(), counters.Value())), item, ctx)
      ensures ok == !Raises(old(Progress(StoreState(), counters.Value())), item)
    {
      var identity := Identity(item);
      if identity in counters.seen {
        counters.duplicatesSkipped := counters.duplicatesSkipped + 1;
        return true;
      }
      counters.seen := counters.seen + {identity};
      if item.capture.None? {
        return false;
      }
      var capture := item.capture.value;
      var stored := InsertIdempotent(Stamped(capture.row, ctx));
      if stored.None? {
        counters.duplicatesSkipped := counters.duplicatesSkipped + 1;
      } else {
        counters.persistedNew := counters.persistedNew + 1;
        var job := queue.EnqueueJob(NormalizeJob(stored.value, ctx), capture.at);
        if job.Some? {
          counters.jobsEnqueued := counters.jobsEnqueued + 1;
        }
      }
      return true;
    }

    method RunPartition(part: Partition, ctx: Context, counters: RunCounters) returns (outcome: PartitionOutcome)
      modifies this`checkpoints, db`observations, queue, counters
      ensures (Progress(StoreState(), counters.Value()), outcome)
           == TakePartition(old(Progress(StoreState(), counters.Value())), part, ctx)
    {
      hide TakeItem, Raises;
      if (ctx.run, part.key) in checkpoints {
        return Done(false);
      }
      if part.discovery.DiscoveryRaises? {
        return Aborted;
      }
      var items := part.discovery.items;
      counters.discovered := counters.discovered + |items|;
      ghost var counted := Progress(StoreState(), counters.Value());
      var n := 0;
      while n < |items|
        invariant 0 <= n <= |items|
        invariant checkpoints == old(checkpoints)
        invariant TakeItems(Progress(StoreState(), counters.Value()), items[n..], ctx) == TakeItems(counted, items, ctx)
      {
        assert items[n..][0] == items[n] && items[n..][1..] == items[n + 1..];
        var ok := CaptureItem(items[n], ctx, counters);
        if !ok {
          return Aborted;
        }
        n := n + 1;
      }
      checkpoints := checkpoints[(ctx.run, part.key) := |items|];
      return Done(part.discovery.degraded);
    }

    /** Joins the source run of an earlier call with the same run key, or opens a new one. */
    method OpenSourceRun(refreshRun: nat, source: nat, now: Time) returns (run: nat)
      requires RunsRefer()
      modifies this`sourceRuns, db`runs
      ensures RunsRefer() && run < |db.runs|
      ensures (refreshRun, source) in sourceRuns && sourceRuns[(refreshRun, source)] == run
      ensures (refreshRun, source) in old(sourceRuns) ==>
                db.runs == old(db.runs) && sourceRuns == old(sourceRuns)
      ensures (refreshRun, source) !in old(sourceRuns) ==>
                && run == |old(db.runs)| && sourceRuns == old(sourceRuns)[(refreshRun, source) := run]
                && db.runs == old(db.runs) + [SourceRun(source, now, SourceRunStatus.Pending, None)]
    {
      if (refreshRun, source) in sourceRuns {
        return sourceRuns[(refreshRun, source)];
      }
      run := |db.runs|;
      db.runs := db.runs + [SourceRun(source, now, SourceRunStatus.Pending, None)];
      sourceRuns := sourceRuns[(refreshRun, source) := run];
    }

    method RunPartitions(preflight: Preflight, parts: seq<Partition>, ctx: Context, counters: RunCounters)
      returns (completed: nat, failed: nat, degraded: bool)
      requires preflight != Preflight.Blocked && counters.Value() == NOTHING_YET
      modifies this`checkpoints, db`observations, queue, counters
      ensures Sweep(Progress(StoreState(), counters.Value()), completed, failed, degraded)
           == Swept(old(StoreState()), preflight, parts, ctx)
    {
      hide TakePartition;
      completed, failed, degraded := 0, 0, preflight == Preflight.Degraded;
      ghost var start := Start(StoreState(), preflight);
      var n := 0;
      while n < |parts|
        invariant 0 <= n <= |parts|
        invariant TakePartitions(
                    Sweep(Progress(StoreState(), counters.Value()), completed, failed, degraded), parts[n..], ctx)
               == TakePartitions(start, parts, ctx)
      {
        assert parts[n..][0] == parts[n] && parts[n..][1..] == parts[n + 1..];
        var outcome := RunPartition(parts[n], ctx, counters);
        match outcome {
          case Done(partitionDegraded) =>
            degraded := degraded || partitionDegraded;
            completed := completed + 1;
          case Aborted =>
            failed := failed + 1;
        }
        n := n + 1;
      }
    }

    /** The whole run: the stored observations, jobs and checkpoints, the report, and the verdict on the run row. */
    method RunSource(
        refreshRun: nat, registered: Option<nat>, preflight: Preflight, parts: seq<Partition>,
        via: DiscoveryMethod, now: Time)
      returns (r: Result<RunSummary>)
      requires RunsRefer()
      modifies this, db`observations, db`runs, queue
      ensures RunsRefer()
      ensures registered.None? ==>
                r == Failure(RowNotFound) && StoreState() == old(StoreState()) && db.runs == old(db.runs)
      ensures registered.Some? ==>
        var source := registered.value;
        var joined := (refreshRun, source) in old(sourceRuns);
        var run := if joined then old(sourceRuns)[(refreshRun, source)] else |old(db.runs)|;
        var rows := if joined then old(db.runs)
                      else old(db.runs) + [SourceRun(source, now, SourceRunStatus.Pending, None)];
        var swept := Swept(old(StoreState()), preflight, parts, Context(source, run, refreshRun));
        var summary := Summarized(swept, run, preflight, via);
        && r == Success(summary) && StoreState() == swept.progress.store
        && sourceRuns == old(sourceRuns)[(refreshRun, source) := run]
        && db.runs == rows[run := rows[run].(status := summary.status, gatePassed := Some(summary.gatePassed))]
    {
      hide TakePartitions;
      if registered.None? {
        return Failure(RowNotFound);
      }
      var run := OpenSourceRun(refreshRun, registered.value, now);
      var ctx := Context(registered.value, run, refreshRun);
      var counters := new RunCounters();
      var status := SourceRunStatus.Blocked;
      var completed, failed, degraded := 0, 0, false;
      if preflight != Preflight.Blocked {
        completed, failed, degraded := RunPartitions(preflight, parts, ctx, counters);
        status :=
          if failed > 0 && completed == 0 then SourceRunStatus.Failed
          else if failed > 0 || degraded then SourceRunStatus.Degraded
          else SourceRunStatus.Healthy;
      }
      var passed := status == SourceRunStatus.Healthy && via != DiscoveryMethod.SearchIndex;
      db.runs := db.runs[run := db.runs[run].(status := status, gatePassed := Some(passed))];
      return Success(RunSummary(
        run, status, passed,
        Tally(counters.seen, counters.discovered, counters.persistedNew, counters.duplicatesSkipped,
              counters.jobsEnqueued),
        completed, failed));
    }
  }
}
