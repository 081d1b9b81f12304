/** What taking an item, a partition and a whole call write, in the columns of the tables. */
module CaptureColumns {
  import opened Prelude
  import opened Schema
  import opened JobQueue
  import opened Acquisition
  import opened AcquisitionRuns

  /** A stored row has the source, the native id (without one on either side: the URL), the content and the time. */
  predicate IsStored(observations: seq<Observation>, row: Observation) {
    exists o :: 0 <= o < |observations|
      && observations[o].source == row.source && observations[o].nativeId == row.nativeId
      && (row.nativeId.None? ==> observations[o].url == row.url)
      && observations[o].contentHash == row.contentHash && observations[o].observedAt == row.observedAt
  }

  /** The NORMALIZE job of an observation: priority 10, three attempts, due at once. */
  predicate IsJobOf(job: Job, o: nat, refreshRun: nat, at: Time) {
    && job.identity == JobIdentity(Normalize, None, o, "phase3-skeleton-1") && job.refreshRun == Some(refreshRun)
    && job.status == JobStatus.Pending && job.priority == 10 && job.attemptCount == 0 && job.maxAttempts == 3
    && job.nextAttemptAt == Some(at) && job.createdAt == at && job.leaseToken == None && job.leaseExpiresAt == None
  }

  /** The native id, or the URL when there is none or an empty one. */
  function NameOf(item: Item): string {
    match item.nativeId
    case Some(id) => if id == "" then item.url else id
    case None => item.url
  }

  /** The observation as it is stored: fetched for this source in this source run. */
  function RowFor(capture: Capture, ctx: Context): Observation {
    capture.row.(source := ctx.source, run := ctx.run)
  }

  /** Only these tables and counters may differ; checkpoints, attempts and pages discovered stay. */
  predicate TookItem(p: Progress, q: Progress) {
    && q.store.checkpoints == p.store.checkpoints && q.store.queue.attempts == p.store.queue.attempts
    && q.tally.discovered == p.tally.discovered
  }

  /**
   * An item seen before in the call is counted and skipped; any other is marked as seen, and when it was fetched,
   * stored with its job unless a row with its key is stored already, which counts as a duplicate.
   */
  lemma ItemColumns(p: Progress, item: Item, ctx: Context)
    ensures
      var q, name := TakeItem(p, item, ctx), NameOf(item);
      && TookItem(p, q) && q.tally.seen == p.tally.seen + {name}
      && (name in p.tally.seen ==>
            && q.store == p.store
            && q.tally == p.tally.(duplicatesSkipped := p.tally.duplicatesSkipped + 1))
      && (name !in p.tally.seen && item.capture.None? ==>
            q.store == p.store && q.tally == p.tally.(seen := q.tally.seen))
      && (name !in p.tally.seen && item.capture.Some? ==>
            var row := RowFor(item.capture.value, ctx);
            if IsStored(p.store.observations, row) then
              && q.store == p.store
              && q.tally == p.tally.(seen := q.tally.seen, duplicatesSkipped := p.tally.duplicatesSkipped + 1)
            else
              && q.store.observations == p.store.observations + [row]
              && q.tally.persistedNew == p.tally.persistedNew + 1
              && q.tally.duplicatesSkipped == p.tally.duplicatesSkipped)
  {
  }

  /** A row that is stored gets its job, when jobs name stored observations only. */
  lemma JobColumns(p: Progress, item: Item, ctx: Context)
    requires QueueRefers(p.store)
    requires NameOf(item) !in p.tally.seen && item.capture.Some?
    requires !IsStored(p.store.observations, RowFor(item.capture.value, ctx))
    ensures
      var q, n := TakeItem(p, item, ctx), |p.store.observations|;
      && |q.store.queue.jobs| == |p.store.queue.jobs| + 1
      && q.store.queue.jobs[..|p.store.queue.jobs|] == p.store.queue.jobs
      && IsJobOf(q.store.queue.jobs[|p.store.queue.jobs|], n, ctx.refreshRun, item.capture.value.at)
      && q.tally.jobsEnqueued == p.tally.jobsEnqueued + 1
  {
  }

  /**
   * What is fetched at a time of which the source has no row of that identity is always stored, whatever its content.
   */
  lemma NewSightingIsStored(p: Progress, item: Item, ctx: Context)
    requires NameOf(item) !in p.tally.seen && item.capture.Some?
    requires
      var row := RowFor(item.capture.value, ctx);
      forall o | 0 <= o < |p.store.observations| && p.store.observations[o].source == ctx.source ::
        p.store.observations[o].observedAt == row.observedAt ==>
          if row.nativeId.Some? then p.store.observations[o].nativeId != row.nativeId
          else p.store.observations[o].nativeId.Some? || p.store.observations[o].url != row.url
    ensures TakeItem(p, item, ctx).store.observations
         == p.store.observations + [RowFor(item.capture.value, ctx)]
    ensures QueueRefers(p.store) ==>
              && |TakeItem(p, item, ctx).store.queue.jobs| == |p.store.queue.jobs| + 1
              && IsJobOf(TakeItem(p, item, ctx).store.queue.jobs[|p.store.queue.jobs|], |p.store.observations|,
                         ctx.refreshRun, item.capture.value.at)
  {
    ItemColumns(p, item, ctx);
    if QueueRefers(p.store) {
      JobColumns(p, item, ctx);
    }
  }

  /**
   * A call stores an item if and only if it attempts it and, when its turn comes, neither the table nor what the call
   * stored before it has a row with its key.
   */
  lemma StoredColumns(store: Store, preflight: Preflight, parts: seq<Partition>, ctx: Context, x: Item)
    requires preflight != Preflight.Blocked
    ensures
      var tried := Attempts(DoneKeys(store.checkpoints, ctx.run), parts, {});
      x in StoredItems(store, preflight, parts, ctx) <==>
        exists n: nat :: n < |tried| && tried[n] == x && x.capture.Some?
          && !IsStored(store.observations + Rows(NewOnes(store.observations, tried[..n], ctx), ctx),
                       RowFor(x.capture.value, ctx))
  {
    hide Attempts, DoneKeys, NewOnes, Known, IsStored;
    var tried := Attempts(DoneKeys(store.checkpoints, ctx.run), parts, {});
    StoredIff(store.observations, tried, ctx, x);
    forall n: nat | n < |tried| && tried[n] == x && x.capture.Some?
      ensures IsNew(store.observations, tried, n, ctx) <==>
                !IsStored(store.observations + Rows(NewOnes(store.observations, tried[..n], ctx), ctx),
                          RowFor(x.capture.value, ctx))
    {
      KnownIsStored(store.observations + Rows(NewOnes(store.observations, tried[..n], ctx), ctx),
                    RowFor(x.capture.value, ctx));
    }
  }

  lemma KnownIsStored(observations: seq<Observation>, row: Observation)
    ensures Known(observations, row) <==> IsStored(observations, row)
  {
  }

  /**
   * A partition done in this source run is skipped, one that cannot be listed stores nothing, and only a page taken to
   * its end is checkpointed, with its size.
   */
  lemma PartitionColumns(p: Progress, part: Partition, ctx: Context)
    ensures
      var (q, outcome) := TakePartition(p, part, ctx);
      && ((ctx.run, part.key) in p.store.checkpoints ==> q == p && outcome == Done(false))
      && ((ctx.run, part.key) !in p.store.checkpoints && part.discovery.DiscoveryRaises? ==>
            q == p && outcome == Aborted)
      && ((ctx.run, part.key) !in p.store.checkpoints && part.discovery.Page? ==>
            && q.tally.discovered == p.tally.discovered + |part.discovery.items|
            && outcome in {Aborted, Done(part.discovery.degraded)}
            && q.store.checkpoints ==
                 if outcome.Aborted? then p.store.checkpoints
                 else p.store.checkpoints[(ctx.run, part.key) := |part.discovery.items|])
  {
    hide TakeItem, Raises;
    if part.discovery.Page? {
      ItemsKeepCheckpoints(Counted(p, |part.discovery.items|), part.discovery.items, ctx);
    }
  }

  lemma {:induction false} ItemsKeepCheckpoints(p: Progress, items: seq<Item>, ctx: Context)
    ensures TakeItems(p, items, ctx).0.store.checkpoints == p.store.checkpoints
    ensures TakeItems(p, items, ctx).0.tally.discovered == p.tally.discovered
    decreases |items|
  {
    hide TakeItem, Raises;
    if items != [] {
      ItemColumns(p, items[0], ctx);
      if !Raises(p, items[0]) {
        ItemsKeepCheckpoints(TakeItem(p, items[0], ctx), items[1..], ctx);
      }
    }
  }

  /**
   * The status of a call: BLOCKED by preflight, FAILED when partitions failed and none completed, DEGRADED when one
   * failed or looked degraded, HEALTHY otherwise; only a HEALTHY call that is not search-discovered passes the gate.
   */
  lemma StatusColumns(s: Sweep, run: nat, preflight: Preflight, via: DiscoveryMethod)
    ensures
      var summary := Summarized(s, run, preflight, via);
      && (summary.status == SourceRunStatus.Blocked <==> preflight == Preflight.Blocked)
      && (summary.status == SourceRunStatus.Failed <==>
            preflight != Preflight.Blocked && s.failed > 0 && s.completed == 0)
      && (summary.status == SourceRunStatus.Degraded <==>
            preflight != Preflight.Blocked && (if s.failed > 0 then s.completed > 0 else s.degraded))
      && (summary.status == SourceRunStatus.Healthy <==>
            preflight != Preflight.Blocked && s.failed == 0 && !s.degraded)
      && (summary.gatePassed <==>
            summary.status == SourceRunStatus.Healthy && via != DiscoveryMethod.SearchIndex)
      && summary.completed == s.completed && summary.failed == s.failed && summary.tally == s.progress.tally
  {
  }
}
