/**
 * Runs without failures store the deduplicated pages, and exactly when a call, fresh or resumed, passes
 * the health gate.
 */
module AcquisitionGate {
  import opened Schema
  import opened JobQueue
  import opened Acquisition
  import opened AcquisitionRuns

  // ---------------------------------------------------------------- the partitions a call opens

  /** The planned partitions without a checkpoint, each key once: the ones a call without failures takes. */
  function OpenParts(done: set<string>, parts: seq<Partition>): seq<Partition>
    decreases |parts|
  {
    if parts == [] then []
    else if parts[0].key in done then OpenParts(done, parts[1..])
    else [parts[0]] + OpenParts(done + {parts[0].key}, parts[1..])
  }

  /** `x` is planned at position `n`, without a checkpoint and without an earlier partition of its key. */
  predicate OpensAt(done: set<string>, parts: seq<Partition>, n: nat, x: Partition) {
    && n < |parts| && parts[n] == x && x.key !in done
    && (forall m :: 0 <= m < n ==> parts[m].key != x.key)
  }

  /** A partition is open if and only if it has no checkpoint and is the first planned with its key. */
  lemma {:induction false} OpenIff(done: set<string>, parts: seq<Partition>, x: Partition)
    ensures x in OpenParts(done, parts) <==> exists n: nat :: OpensAt(done, parts, n, x)
    decreases |parts|
  {
    if parts != [] {
      var first, rest := parts[0], parts[1..];
      var after := if first.key in done then done else done + {first.key};
      OpenIff(after, rest, x);
      if n: nat :| OpensAt(done, parts, n, x) {
        if n > 0 {
          assert first.key != x.key;
          assert OpensAt(after, rest, n - 1, x);
        }
      }
      if n: nat :| OpensAt(after, rest, n, x) {
        assert first.key != x.key;
        assert forall m :: 0 < m < n + 1 ==> parts[m] == rest[m - 1];
        assert OpensAt(done, parts, n + 1, x);
      }
      if x == first && first.key !in done {
        assert OpensAt(done, parts, 0, x);
      }
    }
  }

  predicate AllListed(parts: seq<Partition>) {
    forall n :: 0 <= n < |parts| ==> parts[n].discovery.Page?
  }

  predicate SomeDegraded(parts: seq<Partition>) {
    exists n :: 0 <= n < |parts| && parts[n].discovery.Page? && parts[n].discovery.degraded
  }

  lemma AllListedSteps(parts: seq<Partition>)
    requires parts != []
    ensures AllListed(parts) <==> parts[0].discovery.Page? && AllListed(parts[1..])
    ensures SomeDegraded(parts) <==>
              (parts[0].discovery.Page? && parts[0].discovery.degraded) || SomeDegraded(parts[1..])
  {
    if AllListed(parts[1..]) && parts[0].discovery.Page? {
      forall n | 0 <= n < |parts| ensures parts[n].discovery.Page? {
        assert n > 0 ==> parts[n] == parts[1..][n - 1];
      }
    }
    if SomeDegraded(parts) {
      var n :| 0 <= n < |parts| && parts[n].discovery.Page? && parts[n].discovery.degraded;
      assert n > 0 ==> parts[1..][n - 1] == parts[n];
    }
    assert forall n :: 0 <= n < |parts[1..]| ==> parts[1..][n] == parts[n + 1];
  }

  /** Nothing fails: every one of these partitions can be listed and every first occurrence fetched. */
  predicate NothingFails(parts: seq<Partition>, seen: set<string>) {
    AllListed(parts) && Captured(FirstOccurrences(AllItems(parts), seen))
  }

  lemma {:induction false} FailuresOnlyGrow(s: Sweep, parts: seq<Partition>, ctx: Context)
    ensures TakePartitions(s, parts, ctx).failed >= s.failed
    decreases |parts|
  {
    hide TakePartition;
    if parts != [] {
      FailuresOnlyGrow(TakeOne(s, parts[0], ctx), parts[1..], ctx);
    }
  }

  lemma {:induction false} NoStopsWithoutFailures(s: Sweep, parts: seq<Partition>, ctx: Context)
    requires TakePartitions(s, parts, ctx).failed == s.failed
    ensures MidPageStops(s, parts, ctx) == 0
    decreases |parts|
  {
    hide TakePartition;
    if parts != [] {
      FailuresOnlyGrow(TakeOne(s, parts[0], ctx), parts[1..], ctx);
      NoStopsWithoutFailures(TakeOne(s, parts[0], ctx), parts[1..], ctx);
    }
  }

  lemma {:induction false} CapturedAreAttempted(items: seq<Item>)
    ensures Captured(Attempted(items)) <==> Captured(items)
    ensures Captured(items) ==> Attempted(items) == items
    decreases |items|
  {
    if items != [] {
      CapturedAreAttempted(items[1..]);
      assert items == [items[0]] + items[1..];
      CapturedConcat([items[0]], items[1..]);
      CapturedConcat([items[0]], Attempted(items[1..]));
    }
  }

  lemma {:induction false} FirstsHaveAllIdentities(items: seq<Item>, seen: set<string>)
    ensures seen + Identities(FirstOccurrences(items, seen)) == seen + Identities(items)
    decreases |items|
  {
    hide Identity, Identities;
    if items != [] {
      var id := Identity(items[0]);
      assert items == [items[0]] + items[1..];
      IdentitiesConcat([items[0]], items[1..]);
      OneIdentity(items[0]);
      if id in seen {
        FirstsHaveAllIdentities(items[1..], seen);
        assert seen + Identities(items) == seen + Identities(items[1..]);
      } else {
        FirstsHaveAllIdentities(items[1..], seen + {id});
        IdentitiesConcat([items[0]], FirstOccurrences(items[1..], seen + {id}));
        assert seen + Identities(items) == (seen + {id}) + Identities(items[1..]);
        assert seen + Identities(FirstOccurrences(items, seen))
            == (seen + {id}) + Identities(FirstOccurrences(items[1..], seen + {id}));
      }
    }
  }

  // ---------------------------------------------------------------- calls without failures

  /** What a partition contributes when it is taken: failure, or all the first occurrences of its page. */
  lemma OpenPartition(s: Sweep, part: Partition, ctx: Context)
    requires (ctx.run, part.key) !in s.progress.store.checkpoints
    ensures
      var p := s.progress;
      var next := TakeOne(s, part, ctx);
      var firsts := FirstOccurrences(PageItems(part), p.tally.seen);
      && (next.failed == s.failed <==> part.discovery.Page? && Captured(firsts))
      && next.failed >= s.failed
      && (next.failed == s.failed ==>
            && PageAttempts(PageItems(part), p.tally.seen) == firsts
            && next.progress.tally.seen == p.tally.seen + Identities(PageItems(part))
            && next.progress.tally.discovered == p.tally.discovered + |PageItems(part)|
            && next.progress.store.checkpoints == p.store.checkpoints[(ctx.run, part.key) := |PageItems(part)|]
            && (next.degraded <==> s.degraded || part.discovery.degraded))
  {
    hide TakePartition, Stored, Subsequence, NewOnes, Identities, Attempted, FirstOccurrences,
      StopsMidPage, Unaccounted;
    PartitionStores(s.progress, part, ctx);
    CapturedAreAttempted(FirstOccurrences(PageItems(part), s.progress.tally.seen));
    FirstsHaveAllIdentities(PageItems(part), s.progress.tally.seen);
  }

  /**
   * From any store: nothing fails if and only if the open partitions can be listed and their first occurrences fetched;
   * then the call attempts exactly those first occurrences, and is degraded exactly by them.
   */
  lemma {:induction false} SweepRefines(s: Sweep, parts: seq<Partition>, ctx: Context)
    ensures
      var done := DoneKeys(s.progress.store.checkpoints, ctx.run);
      var open := OpenParts(done, parts);
      var e := TakePartitions(s, parts, ctx);
      && (e.failed == s.failed <==> NothingFails(open, s.progress.tally.seen))
      && (e.failed == s.failed ==>
            && Attempts(done, parts, s.progress.tally.seen) == FirstOccurrences(AllItems(open), s.progress.tally.seen)
            && (e.degraded <==> s.degraded || SomeDegraded(open))
            && e.progress.tally.discovered == s.progress.tally.discovered + |AllItems(open)|)
    decreases |parts|
  {
    hide TakePartition, FirstOccurrences, Identities, PageItems, Captured, DoneKeys, PageAttempts;
    var p := s.progress;
    var done := DoneKeys(p.store.checkpoints, ctx.run);
    if parts == [] {
      NoItems(p.tally.seen);
    } else {
      var part := parts[0];
      var next := TakeOne(s, part, ctx);
      DoneIff(p.store.checkpoints, ctx.run, part.key);
      SweepRefines(next, parts[1..], ctx);
      FailuresOnlyGrow(next, parts[1..], ctx);
      if part.key in done {
        SkippedDoesNothing(s, part, ctx);
      } else {
        OpenPartition(s, part, ctx);
        var rest := OpenParts(done + {part.key}, parts[1..]);
        assert OpenParts(done, parts) == [part] + rest;
        OpenUnfolds(part, rest);
        var here, later := PageItems(part), AllItems(rest);
        FirstOccurrencesConcat(here, later, p.tally.seen);
        CapturedConcat(FirstOccurrences(here, p.tally.seen), FirstOccurrences(later, p.tally.seen + Identities(here)));
        if next.failed == s.failed {
          DoneGrows(p.store.checkpoints, ctx.run, part.key, |here|);
          FinishesIff(part, p.tally.seen);
          FirstsHaveAllIdentities(here, p.tally.seen);
        }
      }
    }
  }

  lemma FinishesIff(part: Partition, seen: set<string>)
    ensures Finishes(part, seen) <==> part.discovery.Page? && Captured(FirstOccurrences(PageItems(part), seen))
  {
    CapturedAreAttempted(FirstOccurrences(PageItems(part), seen));
  }

  lemma NoItems(seen: set<string>)
    ensures FirstOccurrences([], seen) == [] && Captured([])
  {
  }

  lemma OpenUnfolds(part: Partition, rest: seq<Partition>)
    ensures AllItems([part] + rest) == PageItems(part) + AllItems(rest)
    ensures AllListed([part] + rest) <==> part.discovery.Page? && AllListed(rest)
    ensures SomeDegraded([part] + rest) <==> (part.discovery.Page? && part.discovery.degraded) || SomeDegraded(rest)
  {
    hide PageItems;
    assert ([part] + rest)[1..] == rest;
    AllListedSteps([part] + rest);
  }

  /** The open partitions of a call. */
  function OpenNow(store: Store, parts: seq<Partition>, ctx: Context): seq<Partition> {
    OpenParts(DoneKeys(store.checkpoints, ctx.run), parts)
  }

  /**
   * A call without failures, fresh or resumed, stores the order-preserving dedup of the open partitions' pages, leaving
   * out only items whose key is known; and its counters say so.
   */
  lemma CompleteCallIsDedup(store: Store, preflight: Preflight, parts: seq<Partition>, ctx: Context)
    requires preflight != Preflight.Blocked && Swept(store, preflight, parts, ctx).failed == 0
    ensures
      var e := Swept(store, preflight, parts, ctx);
      var t := e.progress.tally;
      var items := AllItems(OpenNow(store, parts, ctx));
      var picks := NewOnes(store.observations, Dedup(items), ctx);
      && e.progress.store.observations == store.observations + Rows(picks, ctx)
      && t.discovered == |items| == t.persistedNew + t.duplicatesSkipped && t.persistedNew == |picks|
      && (QueueRefers(store) ==>
            && t.jobsEnqueued == t.persistedNew
            && e.progress.store.queue.jobs == store.queue.jobs + JobsOf(picks, |store.observations|, ctx))
  {
    hide TakePartitions, FirstOccurrences, Dedup, NewOnes, Attempts, MidPageStops, Subsequence, QueueRefers, Identity,
      AllItems, OpenParts, DistinctIdentities, DoneKeys;
    var s := Start(store, preflight);
    SweepRefines(s, parts, ctx);
    FirstOccurrencesAreDedup(AllItems(OpenNow(store, parts, ctx)));
    EachIdentityOncePerCall(store, preflight, parts, ctx);
    NoStopsWithoutFailures(s, parts, ctx);
  }

  /** The rows to be stored are new keys, to the table and to each other. */
  predicate AllNew(observations: seq<Observation>, items: seq<Item>, ctx: Context)
    requires Captured(items)
  {
    forall a :: 0 <= a < |items| ==> !Known(observations + Rows(items[..a], ctx), RowOf(items[a], ctx))
  }

  /** With new keys only, nothing is left out. */
  lemma {:induction false} AllNewAreStored(observations: seq<Observation>, items: seq<Item>, ctx: Context)
    requires Captured(items)
    ensures NewOnes(observations, items, ctx) == items <==> AllNew(observations, items, ctx)
    ensures |NewOnes(observations, items, ctx)| <= |items|
    decreases |items|
  {
    hide Known, RowOf, NewOnes, Rows;
    if items == [] {
      NewOnesOfNone(observations, ctx);
    } else {
      var last := |items| - 1;
      var front, item := items[..last], items[last];
      AllNewAreStored(observations, front, ctx);
      AllNewSnoc(observations, items, ctx);
      assert items == front + [item];
      NewOnesConcat(observations, front, [item], ctx);
      var picks := NewOnes(observations, front, ctx);
      NewOnesOfOne(observations + Rows(picks, ctx), item, ctx);
      if NewOnes(observations, items, ctx) == items {
        assert |picks| == last;
        assert picks == items[..last];
      }
    }
  }

  lemma NewOnesOfNone(observations: seq<Observation>, ctx: Context)
    ensures NewOnes(observations, [], ctx) == []
  {
  }

  lemma NewOnesOfOne(observations: seq<Observation>, item: Item, ctx: Context)
    requires item.capture.Some?
    ensures NewOnes(observations, [item], ctx) == if Known(observations, RowOf(item, ctx)) then [] else [item]
  {
    hide Known, RowOf;
    assert [item][1..] == [];
  }

  lemma AllNewSnoc(observations: seq<Observation>, items: seq<Item>, ctx: Context)
    requires items != [] && Captured(items)
    ensures
      var last := |items| - 1;
      AllNew(observations, items, ctx) <==>
        AllNew(observations, items[..last], ctx)
        && !Known(observations + Rows(items[..last], ctx), RowOf(items[last], ctx))
  {
    hide Known, RowOf, Rows;
    var last := |items| - 1;
    assert forall a :: 0 <= a < last ==> items[..last][..a] == items[..a];
  }

  // ---------------------------------------------------------------- the health gate

  /**
   * From any store, so for fresh, resumed and repeated calls alike: the gate passes if and only if preflight is clean,
   * the source is not search-discovered, and every open partition is listed, untruncated, with every first occurrence
   * fetched. What partitions with a checkpoint looked like when they were done plays no part.
   */
  lemma GatePassesIff(store: Store, preflight: Preflight, parts: seq<Partition>, via: DiscoveryMethod, ctx: Context)
    ensures
      var open := OpenNow(store, parts, ctx);
      Summarized(Swept(store, preflight, parts, ctx), ctx.run, preflight, via).gatePassed <==>
        && preflight == Preflight.Ok && via != DiscoveryMethod.SearchIndex
        && AllListed(open) && Captured(Dedup(AllItems(open))) && !SomeDegraded(open)
  {
    hide TakePartitions, FirstOccurrences, Dedup, AllItems, Attempts, OpenParts, DoneKeys, AllListed, SomeDegraded;
    if preflight != Preflight.Blocked {
      SweepRefines(Start(store, preflight), parts, ctx);
      FirstOccurrencesAreDedup(AllItems(OpenNow(store, parts, ctx)));
    }
  }

  /** No planned partition has a checkpoint, and no two share a key. */
  predicate FreshKeys(done: set<string>, parts: seq<Partition>) {
    && (forall n :: 0 <= n < |parts| ==> parts[n].key !in done)
    && (forall m, n :: 0 <= m < n < |parts| ==> parts[m].key != parts[n].key)
  }

  lemma {:induction false} FreshIsAllOpen(done: set<string>, parts: seq<Partition>)
    requires FreshKeys(done, parts)
    ensures OpenParts(done, parts) == parts
    decreases |parts|
  {
    if parts != [] {
      FreshIsAllOpen(done + {parts[0].key}, parts[1..]);
    }
  }

  /** In a fresh run the open partitions are all the planned ones. */
  lemma FreshGateIff(store: Store, preflight: Preflight, parts: seq<Partition>, via: DiscoveryMethod, ctx: Context)
    requires FreshKeys(DoneKeys(store.checkpoints, ctx.run), parts)
    ensures Summarized(Swept(store, preflight, parts, ctx), ctx.run, preflight, via).gatePassed <==>
      && preflight == Preflight.Ok && via != DiscoveryMethod.SearchIndex
      && AllListed(parts) && Captured(Dedup(AllItems(parts))) && !SomeDegraded(parts)
  {
    hide Swept, Dedup, AllItems, AllListed, SomeDegraded, DoneKeys;
    GatePassesIff(store, preflight, parts, via, ctx);
    FreshIsAllOpen(DoneKeys(store.checkpoints, ctx.run), parts);
  }

  /** A fresh run without failures and with new keys only stores the whole dedup of all its pages. */
  lemma FreshRunIsDedup(store: Store, preflight: Preflight, parts: seq<Partition>, ctx: Context)
    requires preflight != Preflight.Blocked && Swept(store, preflight, parts, ctx).failed == 0
    requires FreshKeys(DoneKeys(store.checkpoints, ctx.run), parts)
    ensures Captured(Dedup(AllItems(parts)))
    ensures AllNew(store.observations, Dedup(AllItems(parts)), ctx) <==>
              Swept(store, preflight, parts, ctx).progress.tally.persistedNew == |Dedup(AllItems(parts))|
    ensures AllNew(store.observations, Dedup(AllItems(parts)), ctx) ==>
              Swept(store, preflight, parts, ctx).progress.store.observations
                == store.observations + Rows(Dedup(AllItems(parts)), ctx)
  {
    hide TakePartitions, Dedup, AllItems, NewOnes, AllNew, Attempts, FirstOccurrences, DoneKeys, QueueRefers, OpenParts;
    FreshIsAllOpen(DoneKeys(store.checkpoints, ctx.run), parts);
    SweepRefines(Start(store, preflight), parts, ctx);
    FirstOccurrencesAreDedup(AllItems(parts));
    CompleteCallIsDedup(store, preflight, parts, ctx);
    AllNewAreStored(store.observations, Dedup(AllItems(parts)), ctx);
    FullLength(store.observations, Dedup(AllItems(parts)), ctx);
  }

  lemma {:induction false} FullLength(observations: seq<Observation>, items: seq<Item>, ctx: Context)
    requires Captured(items)
    ensures |NewOnes(observations, items, ctx)| <= |items|
    ensures |NewOnes(observations, items, ctx)| == |items| ==> NewOnes(observations, items, ctx) == items
    decreases |items|
  {
    hide Known, Stamped;
    if items != [] {
      FullLength(observations, items[1..], ctx);
      FullLength(observations + [RowOf(items[0], ctx)], items[1..], ctx);
    }
  }

  // ---------------------------------------------------------------- calling again

  lemma {:induction false} CompletedAreDone(s: Sweep, parts: seq<Partition>, ctx: Context)
    requires TakePartitions(s, parts, ctx).failed == s.failed
    ensures s.progress.store.checkpoints.Keys <= TakePartitions(s, parts, ctx).progress.store.checkpoints.Keys
    ensures forall n :: 0 <= n < |parts| ==>
              (ctx.run, parts[n].key) in TakePartitions(s, parts, ctx).progress.store.checkpoints
    decreases |parts|
  {
    hide TakePartition, FirstOccurrences, PageAttempts, Identities;
    if parts != [] {
      var next := TakeOne(s, parts[0], ctx);
      FailuresOnlyGrow(next, parts[1..], ctx);
      if (ctx.run, parts[0].key) in s.progress.store.checkpoints {
        SkippedDoesNothing(s, parts[0], ctx);
      } else {
        OpenPartition(s, parts[0], ctx);
      }
      CompletedAreDone(next, parts[1..], ctx);
      forall n | 0 <= n < |parts|
        ensures (ctx.run, parts[n].key) in TakePartitions(s, parts, ctx).progress.store.checkpoints
      {
        assert n > 0 ==> parts[1..][n - 1] == parts[n];
      }
    }
  }

  lemma {:induction false} NothingOpen(done: set<string>, parts: seq<Partition>)
    requires forall n :: 0 <= n < |parts| ==> parts[n].key in done
    ensures OpenParts(done, parts) == []
    decreases |parts|
  {
    if parts != [] {
      NothingOpen(done, parts[1..]);
    }
  }

  /**
   * Repeating a run key after a call without failed partitions stores nothing, and its gate no longer depends on what
   * the adapter would answer or on how degraded the first call was.
   */
  lemma RerunPasses(
      store: Store, first: Preflight, parts: seq<Partition>, preflight: Preflight, again: seq<Partition>,
      via: DiscoveryMethod, ctx: Context)
    requires first != Preflight.Blocked && Swept(store, first, parts, ctx).failed == 0
    requires |again| == |parts| && forall n :: 0 <= n < |parts| ==> again[n].key == parts[n].key
    ensures
      var done := Swept(store, first, parts, ctx).progress.store;
      var summary := Summarized(Swept(done, preflight, again, ctx), ctx.run, preflight, via);
      && Swept(done, preflight, again, ctx).progress.store.observations == done.observations
      && (summary.gatePassed <==> preflight == Preflight.Ok && via != DiscoveryMethod.SearchIndex)
  {
    hide TakePartitions, Attempts, MidPageStops, Subsequence, QueueRefers, Stored;
    CompletedAreDone(Start(store, first), parts, ctx);
    var done := Swept(store, first, parts, ctx).progress.store;
    NothingOpen(DoneKeys(done.checkpoints, ctx.run), again);
    GatePassesIff(done, preflight, again, via, ctx);
    if preflight != Preflight.Blocked {
      SweepRefines(Start(done, preflight), again, ctx);
      CompleteCallIsDedup(done, preflight, again, ctx);
      assert Rows([], ctx) == [];
    }
  }
}
