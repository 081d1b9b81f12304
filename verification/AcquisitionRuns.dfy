/** What a run stores: exactly the first occurrences with a new key, whatever fails, and once per source run or not. */
module AcquisitionRuns {
  import opened Prelude
  import opened Schema
  import opened JobQueue
  import opened Acquisition

  // ---------------------------------------------------------------- reference definitions

  predicate IsFirst(items: seq<Item>, i: nat)
    requires i < |items|
  {
    forall j :: 0 <= j < i ==> Identity(items[j]) != Identity(items[i])
  }

  /** Order-preserving deduplication: an item stays when no earlier one has its identity. */
  function Dedup(items: seq<Item>): seq<Item> {
    if items == [] then
      []
    else
      Dedup(items[..|items| - 1]) + if IsFirst(items, |items| - 1) then [items[|items| - 1]] else []
  }

  function PageItems(part: Partition): seq<Item> {
    match part.discovery
    case DiscoveryRaises => []
    case Page(items, _) => items
  }

  /** All pages, concatenated in partition order. */
  function AllItems(parts: seq<Partition>): seq<Item> {
    if parts == [] then [] else PageItems(parts[0]) + AllItems(parts[1..])
  }

  predicate Captured(items: seq<Item>) {
    forall a :: 0 <= a < |items| ==> items[a].capture.Some?
  }

  function RowOf(item: Item, ctx: Context): Observation
    requires item.capture.Some?
  {
    Stamped(item.capture.value.row, ctx)
  }

  function Rows(items: seq<Item>, ctx: Context): seq<Observation>
    requires Captured(items)
  {
    seq(|items|, a requires 0 <= a < |items| => RowOf(items[a], ctx))
  }

  /** The jobs for observations numbered from `base`. */
  function JobsOf(items: seq<Item>, base: nat, ctx: Context): seq<Job>
    requires Captured(items)
  {
    seq(|items|, a requires 0 <= a < |items| => InsertedJob(NormalizeJob(base + a, ctx), items[a].capture.value.at))
  }

  predicate Subsequence(picks: seq<Item>, items: seq<Item>) {
    picks == []
    || (items != []
        && ((picks[0] == items[0] && Subsequence(picks[1..], items[1..])) || Subsequence(picks, items[1..])))
  }

  predicate DistinctIdentities(items: seq<Item>) {
    forall a, b :: 0 <= a < b < |items| ==> Identity(items[a]) != Identity(items[b])
  }

  /** Every NORMALIZE job names a stored observation. */
  predicate QueueRefers(store: Store) {
    forall j :: 0 <= j < |store.queue.jobs| && store.queue.jobs[j].identity.jobType == Normalize ==>
      store.queue.jobs[j].identity.inputHash < |store.observations|
  }

  // ---------------------------------------------------------------- what is attempted, what is new

  /** The items a page loop captures, given the identities seen before. */
  function FirstOccurrences(items: seq<Item>, seen: set<string>): seq<Item>
    decreases |items|
  {
    if items == [] then []
    else if Identity(items[0]) in seen then FirstOccurrences(items[1..], seen)
    else [items[0]] + FirstOccurrences(items[1..], seen + {Identity(items[0])})
  }

  function Identities(items: seq<Item>): set<string> {
    set a | 0 <= a < |items| :: Identity(items[a])
  }

  lemma IdentitiesConcat(a: seq<Item>, b: seq<Item>)
    ensures Identities(a + b) == Identities(a) + Identities(b)
  {
    hide Identity;
    forall i | 0 <= i < |b| ensures Identity(b[i]) in Identities(a + b) {
      assert (a + b)[|a| + i] == b[i];
    }
    forall i | 0 <= i < |a| ensures Identity(a[i]) in Identities(a + b) {
      assert (a + b)[i] == a[i];
    }
  }

  lemma {:induction false} FirstOccurrencesConcat(a: seq<Item>, b: seq<Item>, seen: set<string>)
    ensures FirstOccurrences(a + b, seen) == FirstOccurrences(a, seen) + FirstOccurrences(b, seen + Identities(a))
    decreases |a|
  {
    hide Identity;
    if a == [] {
      assert a + b == b && seen + Identities(a) == seen;
    } else {
      assert (a + b)[1..] == a[1..] + b;
      var id := Identity(a[0]);
      assert a == [a[0]] + a[1..];
      IdentitiesConcat([a[0]], a[1..]);
      assert Identities([a[0]]) == {id};
      if id in seen {
        assert seen + Identities(a) == seen + Identities(a[1..]);
        FirstOccurrencesConcat(a[1..], b, seen);
      } else {
        assert seen + Identities(a) == seen + {id} + Identities(a[1..]);
        FirstOccurrencesConcat(a[1..], b, seen + {id});
      }
    }
  }

  /** With nothing seen before, the captured items are the deduplicated ones. */
  lemma {:induction false} FirstOccurrencesAreDedup(items: seq<Item>)
    ensures FirstOccurrences(items, {}) == Dedup(items)
  {
    hide Identity;
    if items != [] {
      var front, last := items[..|items| - 1], items[|items| - 1];
      FirstOccurrencesAreDedup(front);
      assert items == front + [last];
      FirstOccurrencesConcat(front, [last], {});
      assert {} + Identities(front) == Identities(front);
      assert Identity(last) in Identities(front) <==> !IsFirst(items, |items| - 1);
      assert [last][1..] == [];
    }
  }

  /** The items up to and including the first that cannot be fetched. */
  function Attempted(items: seq<Item>): seq<Item>
    decreases |items|
  {
    if items == [] then []
    else if items[0].capture.None? then [items[0]]
    else [items[0]] + Attempted(items[1..])
  }

  /** The items of a page that a run with these identities seen tries to fetch. */
  function PageAttempts(items: seq<Item>, seen: set<string>): seq<Item> {
    Attempted(FirstOccurrences(items, seen))
  }

  /** Everything a call tries to fetch: partitions already done are skipped, a finished one is done from then on. */
  function Attempts(done: set<string>, parts: seq<Partition>, seen: set<string>): seq<Item>
    decreases |parts|
  {
    if parts == [] then
      []
    else if parts[0].key in done then
      Attempts(done, parts[1..], seen)
    else
      var here := PageAttempts(PageItems(parts[0]), seen);
      var after := if Finishes(parts[0], seen) then done + {parts[0].key} else done;
      here + Attempts(after, parts[1..], seen + Identities(here))
  }

  /** The keys done after the call. */
  function DoneAfter(done: set<string>, parts: seq<Partition>, seen: set<string>): set<string>
    decreases |parts|
  {
    if parts == [] then
      done
    else if parts[0].key in done then
      DoneAfter(done, parts[1..], seen)
    else
      var here := PageAttempts(PageItems(parts[0]), seen);
      DoneAfter(if Finishes(parts[0], seen) then done + {parts[0].key} else done, parts[1..], seen + Identities(here))
  }

  predicate Finishes(part: Partition, seen: set<string>) {
    part.discovery.Page? && Captured(PageAttempts(PageItems(part), seen))
  }

  /** The partitions of a source run that have a checkpoint. */
  function DoneKeys(checkpoints: map<(nat, string), nat>, run: nat): set<string> {
    set key | key in checkpoints && key.0 == run :: key.1
  }

  /** The fetched items whose key is new, to the table and to the ones before. */
  function NewOnes(observations: seq<Observation>, items: seq<Item>, ctx: Context): (picks: seq<Item>)
    ensures Captured(picks)
    decreases |items|
  {
    if items == [] then
      []
    else if items[0].capture.None? || Known(observations, RowOf(items[0], ctx)) then
      NewOnes(observations, items[1..], ctx)
    else
      [items[0]] + NewOnes(observations + [RowOf(items[0], ctx)], items[1..], ctx)
  }

  lemma CapturedConcat(a: seq<Item>, b: seq<Item>)
    ensures Captured(a + b) <==> Captured(a) && Captured(b)
  {
    if Captured(a + b) {
      assert forall i :: 0 <= i < |a| ==> (a + b)[i] == a[i];
      assert forall i :: 0 <= i < |b| ==> (a + b)[|a| + i] == b[i];
    }
  }

  lemma RowsConcat(a: seq<Item>, b: seq<Item>, ctx: Context)
    requires Captured(a) && Captured(b)
    ensures Captured(a + b) && Rows(a + b, ctx) == Rows(a, ctx) + Rows(b, ctx)
  {
  }

  lemma {:induction false} NewOnesConcat(observations: seq<Observation>, a: seq<Item>, b: seq<Item>, ctx: Context)
    ensures NewOnes(observations, a + b, ctx) == NewOnes(observations, a, ctx)
              + NewOnes(observations + Rows(NewOnes(observations, a, ctx), ctx), b, ctx)
    decreases |a|
  {
    hide Known, Stamped;
    if a == [] {
      assert a + b == b && observations + Rows([], ctx) == observations;
    } else {
      assert (a + b)[1..] == a[1..] + b;
      if a[0].capture.None? || Known(observations, RowOf(a[0], ctx)) {
        NewOnesConcat(observations, a[1..], b, ctx);
      } else {
        var more := observations + [RowOf(a[0], ctx)];
        var rest := NewOnes(more, a[1..], ctx);
        NewOnesConcat(more, a[1..], b, ctx);
        RowsConcat([a[0]], rest, ctx);
        assert Rows([a[0]], ctx) == [RowOf(a[0], ctx)];
        assert more + Rows(rest, ctx) == observations + Rows([a[0]] + rest, ctx);
      }
    }
  }

  /** Item `n` of the list is stored: it was fetched and its key is not known when its turn comes. */
  predicate IsNew(observations: seq<Observation>, items: seq<Item>, n: nat, ctx: Context)
    requires n < |items|
  {
    items[n].capture.Some?
    && !Known(observations + Rows(NewOnes(observations, items[..n], ctx), ctx), RowOf(items[n], ctx))
  }

  /** An item is stored if and only if it is one of the attempted ones whose key is new at its turn. */
  lemma {:induction false} StoredIff(observations: seq<Observation>, items: seq<Item>, ctx: Context, x: Item)
    ensures x in NewOnes(observations, items, ctx) <==>
              exists n: nat :: n < |items| && items[n] == x && IsNew(observations, items, n, ctx)
    decreases |items|
  {
    hide Known, Stamped;
    if items != [] {
      var last := |items| - 1;
      var front := items[..last];
      StoredIff(observations, front, ctx, x);
      assert items == front + [items[last]];
      NewOnesConcat(observations, front, [items[last]], ctx);
      assert [items[last]][1..] == [];
      assert forall n: nat :: n < last ==> front[..n] == items[..n];
      assert forall n: nat :: n < last ==> (IsNew(observations, front, n, ctx) <==> IsNew(observations, items, n, ctx));
    }
  }

  // ---------------------------------------------------------------- whatever fails

  /** How `q` extends `p` when exactly `picks` were stored, in order, each with its job. */
  predicate Stored(p: Progress, q: Progress, picks: seq<Item>, ctx: Context) {
    && Captured(picks) && DistinctIdentities(picks)
    && p.tally.seen <= q.tally.seen
    && (forall a :: 0 <= a < |picks| ==> Identity(picks[a]) !in p.tally.seen && Identity(picks[a]) in q.tally.seen)
    && q.store.observations == p.store.observations + Rows(picks, ctx)
    && q.tally.persistedNew == p.tally.persistedNew + |picks|
    && (QueueRefers(p.store) ==>
          && QueueRefers(q.store)
          && q.store.queue.jobs == p.store.queue.jobs + JobsOf(picks, |p.store.observations|, ctx)
          && q.store.queue.attempts == p.store.queue.attempts
          && q.tally.jobsEnqueued == p.tally.jobsEnqueued + |picks|)
  }

  lemma StoredNothing(p: Progress, q: Progress, ctx: Context)
    requires p.tally.seen <= q.tally.seen && q.store.observations == p.store.observations
    requires q.store.queue == p.store.queue
    requires q.tally.persistedNew == p.tally.persistedNew && q.tally.jobsEnqueued == p.tally.jobsEnqueued
    ensures Stored(p, q, [], ctx)
  {
  }

  lemma StoredChain(p: Progress, q: Progress, r: Progress, first: seq<Item>, second: seq<Item>, ctx: Context)
    requires Stored(p, q, first, ctx) && Stored(q, r, second, ctx)
    ensures Stored(p, r, first + second, ctx)
  {
    hide Identity, Stamped, InsertedJob, QueueRefers;
    var picks := first + second;
    assert Rows(picks, ctx) == Rows(first, ctx) + Rows(second, ctx);
    assert JobsOf(picks, |p.store.observations|, ctx)
        == JobsOf(first, |p.store.observations|, ctx) + JobsOf(second, |q.store.observations|, ctx);
  }

  lemma ItemStores(p: Progress, item: Item, ctx: Context) returns (picks: seq<Item>)
    ensures Stored(p, TakeItem(p, item, ctx), picks, ctx)
    ensures picks == if Identity(item) in p.tally.seen || item.capture.None?
                        || Known(p.store.observations, RowOf(item, ctx))
                     then [] else [item]
    ensures TakeItem(p, item, ctx).tally.seen == p.tally.seen + {Identity(item)}
    ensures TakeItem(p, item, ctx).tally.discovered == p.tally.discovered
    ensures TakeItem(p, item, ctx).store.checkpoints == p.store.checkpoints
    ensures !Raises(p, item) ==>
              |picks| + TakeItem(p, item, ctx).tally.duplicatesSkipped == p.tally.duplicatesSkipped + 1
    ensures Raises(p, item) ==>
              picks == [] && TakeItem(p, item, ctx).tally.duplicatesSkipped == p.tally.duplicatesSkipped
  {
    if Identity(item) in p.tally.seen || item.capture.None? || Known(p.store.observations, RowOf(item, ctx)) {
      picks := [];
    } else {
      picks := [item];
      if QueueRefers(p.store) {
        assert !Conflicts(p.store.queue.jobs, NormalizeIdentity(|p.store.observations|));
      }
    }
  }

  lemma {:induction false} PrefixSubsequence(picks: seq<Item>, item: Item, items: seq<Item>)
    requires Subsequence(picks, items)
    ensures Subsequence(picks, [item] + items) && Subsequence([item] + picks, [item] + items)
  {
    assert ([item] + items)[1..] == items && ([item] + picks)[1..] == picks;
  }

  lemma {:induction false} SubsequenceConcat(a: seq<Item>, x: seq<Item>, b: seq<Item>, y: seq<Item>)
    requires Subsequence(a, x) && Subsequence(b, y)
    ensures Subsequence(a + b, x + y)
    decreases |x|
  {
    if x == [] {
      assert a == [];
      assert a + b == b && x + y == y;
    } else {
      assert x + y == [x[0]] + (x[1..] + y);
      if a != [] && a[0] == x[0] && Subsequence(a[1..], x[1..]) {
        SubsequenceConcat(a[1..], x[1..], b, y);
        assert a + b == [x[0]] + (a[1..] + b);
        PrefixSubsequence(a[1..] + b, x[0], x[1..] + y);
      } else {
        SubsequenceConcat(a, x[1..], b, y);
        PrefixSubsequence(a + b, x[0], x[1..] + y);
      }
    }
  }

  lemma StoredObservations(p: Progress, q: Progress, picks: seq<Item>, ctx: Context)
    requires Stored(p, q, picks, ctx)
    ensures Captured(picks) && q.store.observations == p.store.observations + Rows(picks, ctx)
    ensures q.tally.persistedNew == p.tally.persistedNew + |picks|
  {
  }

  /** A page stores exactly the attempted items with a new key, and is finished iff all of them can be fetched. */
  lemma {:induction false} PageStores(p: Progress, items: seq<Item>, ctx: Context)
    ensures
      var (q, finished) := TakeItems(p, items, ctx);
      var tried := PageAttempts(items, p.tally.seen);
      var picks := NewOnes(p.store.observations, tried, ctx);
      && Stored(p, q, picks, ctx) && Subsequence(picks, items)
      && q.tally.seen == p.tally.seen + Identities(tried)
      && (finished <==> Captured(tried))
      && q.tally.discovered == p.tally.discovered && q.store.checkpoints == p.store.checkpoints
      && |picks| + q.tally.duplicatesSkipped <= p.tally.duplicatesSkipped + |items|
      && (finished <==> |picks| + q.tally.duplicatesSkipped == p.tally.duplicatesSkipped + |items|)
    decreases |items|
  {
    hide Stored, TakeItem, Identity, Identities, Known, Stamped, Subsequence;
    var q := TakeItems(p, items, ctx).0;
    if items == [] {
      EmptySubsequence(items);
      StoredNothing(p, p, ctx);
      NoIdentities(p.tally.seen);
    } else {
      var next := TakeItem(p, items[0], ctx);
      var first := ItemStores(p, items[0], ctx);
      StoredObservations(p, next, first, ctx);
      var tried := PageAttempts(items, p.tally.seen);
      var picks := NewOnes(p.store.observations, tried, ctx);
      assert items == [items[0]] + items[1..];
      OneIdentity(items[0]);
      if Raises(p, items[0]) {
        assert tried == [items[0]];
        assert [items[0]][1..] == [];
        EmptySubsequence(items);
      } else {
        PageStores(next, items[1..], ctx);
        var later := PageAttempts(items[1..], next.tally.seen);
        var rest := NewOnes(next.store.observations, later, ctx);
        StoredObservations(next, q, rest, ctx);
        assert p.store.observations + Rows([], ctx) == p.store.observations;
        if Identity(items[0]) in p.tally.seen {
          assert p.tally.seen + {Identity(items[0])} == p.tally.seen;
          assert picks == first + rest;
        } else {
          TriedUnfolds(items, p.tally.seen);
          assert tried[1..] == later;
          IdentitiesConcat([items[0]], later);
          assert p.tally.seen + Identities(tried) == p.tally.seen + {Identity(items[0])} + Identities(later);
          CapturedConcat([items[0]], later);
          assert Rows([items[0]], ctx) == [RowOf(items[0], ctx)];
          assert picks == first + rest;
        }
        StoredChain(p, next, q, first, rest, ctx);
        PrefixSubsequence(rest, items[0], items[1..]);
        assert first == [] ==> picks == rest;
      }
    }
  }

  lemma TriedUnfolds(items: seq<Item>, seen: set<string>)
    requires items != [] && Identity(items[0]) !in seen && items[0].capture.Some?
    ensures PageAttempts(items, seen) == [items[0]] + PageAttempts(items[1..], seen + {Identity(items[0])})
  {
    var rest := FirstOccurrences(items[1..], seen + {Identity(items[0])});
    assert ([items[0]] + rest)[1..] == rest;
  }

  lemma NoIdentities(seen: set<string>)
    ensures seen + Identities([]) == seen
  {
  }

  lemma OneIdentity(item: Item)
    ensures Identities([item]) == {Identity(item)}
  {
    assert [item][0] == item;
  }

  lemma EmptySubsequence(items: seq<Item>)
    ensures Subsequence([], items)
  {
  }

  /** A partition whose page was listed but not finished. */
  predicate StopsMidPage(p: Progress, part: Partition, ctx: Context) {
    TakePartition(p, part, ctx).1 == Aborted && part.discovery.Page?
  }

  function Unaccounted(t: Tally): int {
    t.discovered - t.persistedNew - t.duplicatesSkipped
  }

  lemma PartitionStores(p: Progress, part: Partition, ctx: Context)
    requires (ctx.run, part.key) !in p.store.checkpoints
    ensures
      var (q, outcome) := TakePartition(p, part, ctx);
      var tried := PageAttempts(PageItems(part), p.tally.seen);
      var picks := NewOnes(p.store.observations, tried, ctx);
      && Stored(p, q, picks, ctx) && Subsequence(picks, PageItems(part))
      && q.tally.seen == p.tally.seen + Identities(tried)
      && (outcome.Done? <==> Finishes(part, p.tally.seen))
      && (outcome.Done? ==>
            && outcome.degraded == part.discovery.degraded
            && q.tally.discovered == p.tally.discovered + |PageItems(part)|)
      && q.store.checkpoints == (if outcome.Done? then p.store.checkpoints[(ctx.run, part.key) := |PageItems(part)|]
                                 else p.store.checkpoints)
      && Unaccounted(q.tally) >= Unaccounted(p.tally)
      && (Unaccounted(q.tally) == Unaccounted(p.tally) <==> !StopsMidPage(p, part, ctx))
  {
    hide TakeItems, Subsequence, Identity, NewOnes, Attempted, Identities;
    if part.discovery.DiscoveryRaises? {
      NothingTried(p, ctx);
    } else {
      PageStores(Counted(p, |PageItems(part)|), PageItems(part), ctx);
    }
  }

  lemma NothingTried(p: Progress, ctx: Context)
    ensures PageAttempts([], p.tally.seen) == [] && NewOnes(p.store.observations, [], ctx) == []
    ensures Stored(p, p, [], ctx) && Subsequence([], []) && p.tally.seen + Identities([]) == p.tally.seen
  {
  }

  /** How many of the partitions stop in the middle of their page. */
  function MidPageStops(s: Sweep, parts: seq<Partition>, ctx: Context): nat
    decreases |parts|
  {
    if parts == [] then 0
    else (if StopsMidPage(s.progress, parts[0], ctx) then 1 else 0)
         + MidPageStops(TakeOne(s, parts[0], ctx), parts[1..], ctx)
  }

  lemma DoneGrows(checkpoints: map<(nat, string), nat>, run: nat, key: string, items: nat)
    ensures DoneKeys(checkpoints[(run, key) := items], run) == DoneKeys(checkpoints, run) + {key}
  {
    assert (run, key) in checkpoints[(run, key) := items];
  }

  lemma DoneIff(checkpoints: map<(nat, string), nat>, run: nat, key: string)
    ensures key in DoneKeys(checkpoints, run) <==> (run, key) in checkpoints
  {
  }

  /**
   * A call from any store, whatever fails: exactly the attempted items with a new key are stored, in page order and
   * each with its job; every planned partition is completed or failed; and the counters account for every item unless a
   * page was left halfway.
   */
  lemma {:induction false} SweepStores(s: Sweep, parts: seq<Partition>, ctx: Context)
    ensures
      var e := TakePartitions(s, parts, ctx);
      var tried := Attempts(DoneKeys(s.progress.store.checkpoints, ctx.run), parts, s.progress.tally.seen);
      var picks := NewOnes(s.progress.store.observations, tried, ctx);
      && Stored(s.progress, e.progress, picks, ctx) && Subsequence(picks, AllItems(parts))
      && DoneKeys(e.progress.store.checkpoints, ctx.run)
           == DoneAfter(DoneKeys(s.progress.store.checkpoints, ctx.run), parts, s.progress.tally.seen)
      && e.completed + e.failed == s.completed + s.failed + |parts|
      && Unaccounted(e.progress.tally) >= Unaccounted(s.progress.tally)
      && (Unaccounted(e.progress.tally) == Unaccounted(s.progress.tally) <==> MidPageStops(s, parts, ctx) == 0)
    decreases |parts|
  {
    hide Stored, TakePartition, Subsequence, PageItems, Unaccounted, StopsMidPage, Identities, PageAttempts, Finishes,
      Known, NewOnes, DoneKeys;
    var p := s.progress;
    if parts == [] {
      NothingTried(p, ctx);
    } else {
      var part := parts[0];
      var next := TakeOne(s, part, ctx);
      var e := TakePartitions(s, parts, ctx);
      DoneIff(p.store.checkpoints, ctx.run, part.key);
      SweepStores(next, parts[1..], ctx);
      var later := Attempts(DoneKeys(next.progress.store.checkpoints, ctx.run), parts[1..], next.progress.tally.seen);
      var rest := NewOnes(next.progress.store.observations, later, ctx);
      if (ctx.run, part.key) in p.store.checkpoints {
        SkippedDoesNothing(s, part, ctx);
        EmptySubsequence(PageItems(part));
        SubsequenceConcat([], PageItems(part), rest, AllItems(parts[1..]));
        assert [] + rest == rest;
      } else {
        PartitionStores(p, part, ctx);
        DoneGrows(p.store.checkpoints, ctx.run, part.key, |PageItems(part)|);
        var here := PageAttempts(PageItems(part), p.tally.seen);
        var first := NewOnes(p.store.observations, here, ctx);
        StoredObservations(p, next.progress, first, ctx);
        NewOnesConcat(p.store.observations, here, later, ctx);
        StoredChain(p, next.progress, e.progress, first, rest, ctx);
        SubsequenceConcat(first, PageItems(part), rest, AllItems(parts[1..]));
      }
    }
  }

  lemma SkippedDoesNothing(s: Sweep, part: Partition, ctx: Context)
    requires (ctx.run, part.key) in s.progress.store.checkpoints
    ensures TakeOne(s, part, ctx) == s.(completed := s.completed + 1) && !StopsMidPage(s.progress, part, ctx)
  {
  }

  /** The items a call stores. */
  function StoredItems(store: Store, preflight: Preflight, parts: seq<Partition>, ctx: Context): (picks: seq<Item>)
    ensures Captured(picks)
  {
    if preflight == Preflight.Blocked then []
    else NewOnes(store.observations, Attempts(DoneKeys(store.checkpoints, ctx.run), parts, {}), ctx)
  }

  /** One call stores each identity at most once, whatever fails, and its counters add up. */
  lemma EachIdentityOncePerCall(store: Store, preflight: Preflight, parts: seq<Partition>, ctx: Context)
    requires preflight != Preflight.Blocked
    ensures
      var e := Swept(store, preflight, parts, ctx);
      var t := e.progress.tally;
      var picks := StoredItems(store, preflight, parts, ctx);
      && DistinctIdentities(picks) && Subsequence(picks, AllItems(parts))
      && e.progress.store.observations == store.observations + Rows(picks, ctx)
      && t.persistedNew == |picks|
      && DoneKeys(e.progress.store.checkpoints, ctx.run) == DoneAfter(DoneKeys(store.checkpoints, ctx.run), parts, {})
      && e.completed + e.failed == |parts|
      && t.discovered >= t.persistedNew + t.duplicatesSkipped
      && (t.discovered == t.persistedNew + t.duplicatesSkipped <==>
            MidPageStops(Start(store, preflight), parts, ctx) == 0)
    ensures QueueRefers(store) ==>
      var e := Swept(store, preflight, parts, ctx);
      var picks := StoredItems(store, preflight, parts, ctx);
      && QueueRefers(e.progress.store) && e.progress.tally.jobsEnqueued == |picks|
      && e.progress.store.queue.jobs == store.queue.jobs + JobsOf(picks, |store.observations|, ctx)
  {
    hide TakePartitions, MidPageStops, Subsequence, AllItems, DistinctIdentities, QueueRefers, NewOnes,
      Attempts, DoneAfter;
    SweepStores(Start(store, preflight), parts, ctx);
  }

  // ---------------------------------------------------------------- several calls of one source run

  predicate HasIdentity(items: seq<Item>, id: string) {
    exists a :: 0 <= a < |items| && Identity(items[a]) == id
  }

  /** Some attempted item of this identity has a new key at its turn. */
  predicate TriesNew(observations: seq<Observation>, tried: seq<Item>, ctx: Context, id: string) {
    exists n: nat :: n < |tried| && Identity(tried[n]) == id && IsNew(observations, tried, n, ctx)
  }

  /**
   * From any store, so for any later call of a source run too: an item is stored if and only if it is among the
   * items the call attempts, namely the first occurrences in the pages of partitions without a checkpoint, and its
   * key is not known.
   */
  lemma StoredByCallIff(store: Store, preflight: Preflight, parts: seq<Partition>, ctx: Context, id: string)
    ensures
      var tried := Attempts(DoneKeys(store.checkpoints, ctx.run), parts, {});
      HasIdentity(StoredItems(store, preflight, parts, ctx), id) <==>
        preflight != Preflight.Blocked && TriesNew(store.observations, tried, ctx, id)
  {
    hide Attempts, DoneKeys, NewOnes, TriesNew;
    if preflight != Preflight.Blocked {
      IdentityStoredIff(store.observations, Attempts(DoneKeys(store.checkpoints, ctx.run), parts, {}), ctx, id);
    }
  }

  lemma IdentityStoredIff(observations: seq<Observation>, tried: seq<Item>, ctx: Context, id: string)
    ensures HasIdentity(NewOnes(observations, tried, ctx), id) <==> TriesNew(observations, tried, ctx, id)
  {
    hide IsNew, Identity;
    var picks := NewOnes(observations, tried, ctx);
    if n: nat :| n < |tried| && Identity(tried[n]) == id && IsNew(observations, tried, n, ctx) {
      StoredIff(observations, tried, ctx, tried[n]);
      var a :| 0 <= a < |picks| && picks[a] == tried[n];
    }
    if a :| 0 <= a < |picks| && Identity(picks[a]) == id {
      StoredIff(observations, tried, ctx, picks[a]);
    }
  }

  /** The identity of a stored row, by the same rule as that of an item. */
  function RowIdentity(row: Observation): string {
    if row.nativeId.Some? && row.nativeId.value != "" then row.nativeId.value else row.url
  }

  /** The source run has an observation of this identity. */
  predicate Has(observations: seq<Observation>, run: nat, id: string) {
    exists o :: 0 <= o < |observations| && observations[o].run == run && RowIdentity(observations[o]) == id
  }

  /** At most one observation per identity in the whole source run. */
  predicate OncePerRun(observations: seq<Observation>, run: nat) {
    forall a, b :: 0 <= a < b < |observations| && observations[a].run == run && observations[b].run == run ==>
      RowIdentity(observations[a]) != RowIdentity(observations[b])
  }

  /** The extracted observation carries the identity of the item it was fetched for. */
  predicate Faithful(items: seq<Item>) {
    forall a :: 0 <= a < |items| && items[a].capture.Some? ==>
      RowIdentity(items[a].capture.value.row) == Identity(items[a])
  }

  lemma RowsCarryIdentities(picks: seq<Item>, ctx: Context)
    requires Captured(picks) && Faithful(picks)
    ensures forall a :: 0 <= a < |picks| ==>
              Rows(picks, ctx)[a].run == ctx.run && RowIdentity(Rows(picks, ctx)[a]) == Identity(picks[a])
  {
    hide Identity, RowIdentity;
    forall a | 0 <= a < |picks|
      ensures Rows(picks, ctx)[a].run == ctx.run && RowIdentity(Rows(picks, ctx)[a]) == Identity(picks[a])
    {
      StampKeepsIdentity(picks[a].capture.value.row, ctx);
    }
  }

  /** Rows of the run with identities of their own, none of which the run has yet: exactly then they keep it so. */
  lemma AppendedOnceIff(observations: seq<Observation>, rows: seq<Observation>, run: nat)
    requires OncePerRun(observations, run) && OncePerRun(rows, run)
    requires forall a :: 0 <= a < |rows| ==> rows[a].run == run
    ensures OncePerRun(observations + rows, run) <==>
              forall a :: 0 <= a < |rows| ==> !Has(observations, run, RowIdentity(rows[a]))
  {
    hide RowIdentity;
    var n := |observations|;
    var after := observations + rows;
    assert forall o :: 0 <= o < n ==> after[o] == observations[o];
    assert forall a :: 0 <= a < |rows| ==> after[n + a] == rows[a];
    if a :| 0 <= a < |rows| && Has(observations, run, RowIdentity(rows[a])) {
      var o :| 0 <= o < n && observations[o].run == run && RowIdentity(observations[o]) == RowIdentity(rows[a]);
      assert RowIdentity(after[o]) == RowIdentity(after[n + a]);
    } else {
      forall a, b | 0 <= a < b < |after| && after[a].run == run && after[b].run == run
        ensures RowIdentity(after[a]) != RowIdentity(after[b])
      {
        assert b >= n ==> after[b] == rows[b - n];
        assert a >= n ==> after[a] == rows[a - n];
      }
    }
  }

  lemma RowsOncePerRun(observations: seq<Observation>, picks: seq<Item>, ctx: Context)
    requires OncePerRun(observations, ctx.run) && Captured(picks) && DistinctIdentities(picks) && Faithful(picks)
    ensures OncePerRun(observations + Rows(picks, ctx), ctx.run) <==>
              forall x :: x in picks ==> !Has(observations, ctx.run, Identity(x))
  {
    hide Identity, RowIdentity, Has;
    var rows := Rows(picks, ctx);
    RowsCarryIdentities(picks, ctx);
    assert OncePerRun(rows, ctx.run);
    AppendedOnceIff(observations, rows, ctx.run);
    assert forall a :: 0 <= a < |picks| ==>
        (Has(observations, ctx.run, RowIdentity(rows[a])) <==> Has(observations, ctx.run, Identity(picks[a])));
  }

  lemma StampKeepsIdentity(row: Observation, ctx: Context)
    ensures Stamped(row, ctx).run == ctx.run && RowIdentity(Stamped(row, ctx)) == RowIdentity(row)
  {
  }

  /** Item `n` is stored although, when its turn comes, the run has an observation of the identity extracted for it. */
  predicate Repeats(observations: seq<Observation>, items: seq<Item>, n: nat, ctx: Context)
    requires n < |items|
  {
    IsNew(observations, items, n, ctx)
    && Has(observations + Rows(NewOnes(observations, items[..n], ctx), ctx), ctx.run,
           RowIdentity(items[n].capture.value.row))
  }

  predicate NeverRepeats(observations: seq<Observation>, items: seq<Item>, ctx: Context) {
    forall n: nat :: n < |items| ==> !Repeats(observations, items, n, ctx)
  }

  lemma OnceMoreIff(observations: seq<Observation>, row: Observation, run: nat)
    requires row.run == run
    ensures OncePerRun(observations + [row], run) <==>
              OncePerRun(observations, run) && !Has(observations, run, RowIdentity(row))
  {
    hide RowIdentity;
    var after := observations + [row];
    var n := |observations|;
    assert forall a :: 0 <= a < n ==> after[a] == observations[a];
    if o :| 0 <= o < n && observations[o].run == run && RowIdentity(observations[o]) == RowIdentity(row) {
      assert after[o].run == run && after[n].run == run && RowIdentity(after[o]) == RowIdentity(after[n]);
    }
    if OncePerRun(after, run) {
      forall a, b | 0 <= a < b < n && observations[a].run == run && observations[b].run == run
        ensures RowIdentity(observations[a]) != RowIdentity(observations[b])
      {
        assert RowIdentity(after[a]) != RowIdentity(after[b]);
      }
    }
  }

  lemma {:induction false} RowsOnceIff(observations: seq<Observation>, items: seq<Item>, ctx: Context)
    requires OncePerRun(observations, ctx.run)
    ensures OncePerRun(observations + Rows(NewOnes(observations, items, ctx), ctx), ctx.run) <==>
              NeverRepeats(observations, items, ctx)
    decreases |items|
  {
    hide Known, OncePerRun, Has, RowIdentity, Stamped;
    if items == [] {
      assert observations + Rows([], ctx) == observations;
    } else {
      var last := |items| - 1;
      var front := items[..last];
      RowsOnceIff(observations, front, ctx);
      assert items == front + [items[last]];
      NewOnesConcat(observations, front, [items[last]], ctx);
      assert [items[last]][1..] == [];
      assert forall n: nat :: n < last ==> front[..n] == items[..n] && front[n] == items[n];
      assert forall n: nat ::
          n < last ==> (Repeats(observations, front, n, ctx) <==> Repeats(observations, items, n, ctx));
      var before := observations + Rows(NewOnes(observations, front, ctx), ctx);
      if IsNew(observations, items, last, ctx) {
        var row := RowOf(items[last], ctx);
        StampKeepsIdentity(items[last].capture.value.row, ctx);
        RowsConcat(NewOnes(observations, front, ctx), [items[last]], ctx);
        assert observations + Rows(NewOnes(observations, items, ctx), ctx) == before + [row];
        OnceMoreIff(before, row, ctx.run);
        assert Repeats(observations, items, last, ctx) <==> Has(before, ctx.run, RowIdentity(row));
      } else {
        assert NewOnes(observations, items, ctx) == NewOnes(observations, front, ctx);
      }
    }
  }

  /**
   * "At most once per source run" survives a call if and only if no attempted item is stored under a new key once the
   * run has an observation of the same extracted identity.
   */
  lemma OncePerRunIff(store: Store, preflight: Preflight, parts: seq<Partition>, ctx: Context)
    requires OncePerRun(store.observations, ctx.run) && preflight != Preflight.Blocked
    ensures
      var tried := Attempts(DoneKeys(store.checkpoints, ctx.run), parts, {});
      OncePerRun(Swept(store, preflight, parts, ctx).progress.store.observations, ctx.run) <==>
        NeverRepeats(store.observations, tried, ctx)
  {
    hide Attempts, DoneKeys, NewOnes, NeverRepeats, OncePerRun, Swept, MidPageStops, Subsequence, QueueRefers;
    EachIdentityOncePerCall(store, preflight, parts, ctx);
    var tried := Attempts(DoneKeys(store.checkpoints, ctx.run), parts, {});
    RowsOnceIff(store.observations, tried, ctx);
    assert StoredItems(store, preflight, parts, ctx) == NewOnes(store.observations, tried, ctx);
    assert Swept(store, preflight, parts, ctx).progress.store.observations
        == store.observations + Rows(NewOnes(store.observations, tried, ctx), ctx);
  }

  /**
   * For adapters whose extracted observation carries the identity of the item it was fetched for, the store before the
   * call decides: the promise survives if and only if every attempted item that can be fetched and whose identity the
   * run already has is already stored under its exact key.
   */
  lemma FaithfulOncePerRunIff(store: Store, preflight: Preflight, parts: seq<Partition>, ctx: Context)
    requires OncePerRun(store.observations, ctx.run) && preflight != Preflight.Blocked
    requires Faithful(Attempts(DoneKeys(store.checkpoints, ctx.run), parts, {}))
    ensures
      var tried := Attempts(DoneKeys(store.checkpoints, ctx.run), parts, {});
      OncePerRun(Swept(store, preflight, parts, ctx).progress.store.observations, ctx.run) <==>
        forall n: nat :: n < |tried| && Has(store.observations, ctx.run, Identity(tried[n])) ==>
          !IsNew(store.observations, tried, n, ctx)
  {
    hide Attempts, DoneKeys, NewOnes, IsNew, Identity, OncePerRun, Has, Swept, MidPageStops, Subsequence,
      QueueRefers, RowIdentity;
    var tried := Attempts(DoneKeys(store.checkpoints, ctx.run), parts, {});
    var picks := StoredItems(store, preflight, parts, ctx);
    EachIdentityOncePerCall(store, preflight, parts, ctx);
    forall x: Item
      ensures x in picks <==> exists n: nat :: n < |tried| && tried[n] == x && IsNew(store.observations, tried, n, ctx)
    {
      StoredIff(store.observations, tried, ctx, x);
    }
    forall a | 0 <= a < |picks|
      ensures picks[a].capture.Some? ==> RowIdentity(picks[a].capture.value.row) == Identity(picks[a])
    {
      assert picks[a] in picks;
      var n: nat :| n < |tried| && tried[n] == picks[a];
    }
    RowsOncePerRun(store.observations, picks, ctx);
    if forall x :: x in picks ==> !Has(store.observations, ctx.run, Identity(x)) {
      forall n: nat | n < |tried| && IsNew(store.observations, tried, n, ctx)
        ensures !Has(store.observations, ctx.run, Identity(tried[n]))
      {
        assert tried[n] in picks;
      }
    }
  }
}
