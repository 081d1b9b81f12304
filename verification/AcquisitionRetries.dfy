/** Calls repeated under one run key: a listing stored twice in its source run, and a truncation forgotten. */
module AcquisitionRetries {
  import opened Prelude
  import opened Schema
  import opened JobQueue
  import opened Acquisition
  import opened AcquisitionRuns
  import opened AcquisitionGate

  const NOTHING_STORED := Store([], EMPTY_QUEUE, map[])

  // ---------------------------------------------------------------- small calls

  lemma OneItemPage(item: Item, seen: set<string>)
    requires Identity(item) !in seen
    ensures PageAttempts([item], seen) == [item]
  {
    assert [item][1..] == [];
    assert FirstOccurrences([item], seen) == [item] + FirstOccurrences([], seen + {Identity(item)});
    assert Attempted([item]) == [item] + if item.capture.None? then [] else Attempted([]);
  }

  lemma TwoItemPage(x: Item, y: Item)
    requires Identity(x) != Identity(y) && x.capture.Some?
    ensures PageAttempts([x, y], {}) == [x, y]
  {
    assert [x, y][1..] == [y] && [y][1..] == [];
    assert FirstOccurrences([y], {} + {Identity(x)}) == [y] + FirstOccurrences([], {} + {Identity(x)} + {Identity(y)});
    assert FirstOccurrences([x, y], {}) == [x] + [y];
    assert Attempted([y]) == [y] + if y.capture.None? then [] else Attempted([]);
    assert [x] + [y] == [x, y];
    assert Attempted([x, y]) == [x] + Attempted([y]);
  }

  lemma LastPartition(done: set<string>, part: Partition, seen: set<string>)
    requires part.key !in done
    ensures Attempts(done, [part], seen) == PageAttempts(PageItems(part), seen)
    ensures DoneAfter(done, [part], seen) == if Finishes(part, seen) then done + {part.key} else done
  {
    hide PageAttempts, Identities, PageItems, Finishes;
    assert [part][1..] == [];
    var here := PageAttempts(PageItems(part), seen);
    var after := if Finishes(part, seen) then done + {part.key} else done;
    assert Attempts(done, [part], seen) == here + Attempts(after, [], seen + Identities(here));
    assert DoneAfter(done, [part], seen) == DoneAfter(after, [], seen + Identities(here));
  }

  lemma FirstPartition(done: set<string>, part: Partition, rest: seq<Partition>)
    requires part.key !in done
    ensures
      var here := PageAttempts(PageItems(part), {});
      var after := if Finishes(part, {}) then done + {part.key} else done;
      && Attempts(done, [part] + rest, {}) == here + Attempts(after, rest, {} + Identities(here))
      && DoneAfter(done, [part] + rest, {}) == DoneAfter(after, rest, {} + Identities(here))
  {
    hide PageAttempts, Identities, PageItems, Finishes;
    assert ([part] + rest)[1..] == rest;
  }

  lemma DonePartition(done: set<string>, part: Partition, rest: seq<Partition>)
    requires part.key in done
    ensures Attempts(done, [part] + rest, {}) == Attempts(done, rest, {})
  {
    hide PageAttempts, Identities, PageItems, Finishes;
    assert ([part] + rest)[1..] == rest;
  }

  /** One fetched item whose key is new, then the rest. */
  lemma NewFirst(observations: seq<Observation>, item: Item, rest: seq<Item>, ctx: Context)
    requires item.capture.Some? && !Known(observations, RowOf(item, ctx))
    ensures NewOnes(observations, [item] + rest, ctx)
         == [item] + NewOnes(observations + [RowOf(item, ctx)], rest, ctx)
  {
    hide Known, Stamped;
    assert ([item] + rest)[1..] == rest;
  }

  lemma OnlyRow(item: Item, ctx: Context)
    requires item.capture.Some?
    ensures Captured([item]) && Rows([item], ctx) == [RowOf(item, ctx)]
  {
  }

  lemma NothingKnown(row: Observation)
    ensures !Known([], row)
  {
  }

  lemma OtherKey(x: Item, y: Item, ctx: Context)
    requires x.capture.Some? && y.capture.Some? && !SameKey(RowOf(x, ctx), RowOf(y, ctx))
    ensures !Known([RowOf(x, ctx)], RowOf(y, ctx))
  {
  }

  /** Two fetches of one listing that the table tells apart, by time or by content. */
  ghost predicate FetchedTwice(x: Item, y: Item, ctx: Context) {
    && x.capture.Some? && y.capture.Some? && Identity(x) == Identity(y)
    && RowIdentity(x.capture.value.row) == Identity(x) && RowIdentity(y.capture.value.row) == Identity(y)
    && !SameKey(RowOf(x, ctx), RowOf(y, ctx))
  }

  lemma TwoRowsOneIdentity(x: Item, y: Item, observations: seq<Observation>, ctx: Context)
    requires FetchedTwice(x, y, ctx) && |observations| >= 2
    requires observations[0] == RowOf(x, ctx) && observations[1] == RowOf(y, ctx)
    ensures !OncePerRun(observations, ctx.run)
  {
    StampKeepsIdentity(x.capture.value.row, ctx);
    StampKeepsIdentity(y.capture.value.row, ctx);
  }

  lemma OneRowIsOnce(row: Observation, run: nat)
    ensures OncePerRun([row], run)
  {
  }

  // ---------------------------------------------------------------- another partition, the same listing

  /**
   * Partition `a` lists the listing and is done, partition `b` fails; when a second call under the same run key retries
   * `b` and that lists it too, the listing is stored twice in one source run.
   */
  lemma RetriedPartitionStoresTwice(x: Item, y: Item, a: string, b: string, ctx: Context)
    requires FetchedTwice(x, y, ctx) && a != b
    ensures
      var lost := [Partition(a, Page([x], false))] + [Partition(b, DiscoveryRaises)];
      var found := [Partition(a, Page([x], false))] + [Partition(b, Page([y], false))];
      var once := Swept(NOTHING_STORED, Preflight.Ok, lost, ctx).progress.store;
      var twice := Swept(once, Preflight.Ok, found, ctx).progress.store;
      && once.observations == [RowOf(x, ctx)] && OncePerRun(once.observations, ctx.run)
      && twice.observations == [RowOf(x, ctx), RowOf(y, ctx)] && !OncePerRun(twice.observations, ctx.run)
  {
    hide Swept, NewOnes, Attempts, DoneAfter, DoneKeys, Known, MidPageStops, Subsequence, QueueRefers,
      DistinctIdentities, PageAttempts, Rows, SameKey, RowIdentity, Identity, OncePerRun;
    var listed, raises := Partition(a, Page([x], false)), Partition(b, DiscoveryRaises);
    var later := Partition(b, Page([y], false));
    var lost, found := [listed] + [raises], [listed] + [later];
    EachIdentityOncePerCall(NOTHING_STORED, Preflight.Ok, lost, ctx);
    NoKeysDone(ctx.run);
    OneItemPage(x, {});
    OnlyRow(x, ctx);
    assert Finishes(listed, {});
    FirstPartition({}, listed, [raises]);
    assert {} + {a} == {a};
    LastPartition({a}, raises, {} + Identities([x]));
    NothingAttempted({} + Identities([x]));
    NothingKnown(RowOf(x, ctx));
    NewFirst([], x, [], ctx);
    NoNewOnes([] + [RowOf(x, ctx)], ctx);
    assert [x] + [] == [x] && [] + [RowOf(x, ctx)] == [RowOf(x, ctx)];
    OneRowIsOnce(RowOf(x, ctx), ctx.run);
    var once := Swept(NOTHING_STORED, Preflight.Ok, lost, ctx).progress.store;
    EachIdentityOncePerCall(once, Preflight.Ok, found, ctx);
    DonePartition({a}, listed, [later]);
    LastPartition({a}, later, {});
    OneItemPage(y, {});
    OtherKey(x, y, ctx);
    OnlyRow(y, ctx);
    NewFirst([RowOf(x, ctx)], y, [], ctx);
    NoNewOnes([RowOf(x, ctx)] + [RowOf(y, ctx)], ctx);
    assert [y] + [] == [y] && [RowOf(x, ctx)] + [RowOf(y, ctx)] == [RowOf(x, ctx), RowOf(y, ctx)];
    TwoRowsOneIdentity(x, y, [RowOf(x, ctx), RowOf(y, ctx)], ctx);
  }

  lemma NoKeysDone(run: nat)
    ensures DoneKeys(map[], run) == {}
  {
  }

  lemma NothingAttempted(seen: set<string>)
    ensures PageAttempts([], seen) == []
  {
  }

  lemma NoNewOnes(observations: seq<Observation>, ctx: Context)
    ensures NewOnes(observations, [], ctx) == []
  {
  }

  // ---------------------------------------------------------------- the same page, again

  /** A page that stopped at an item it could not fetch is taken from its start again, and stores what it had stored. */
  lemma RetriedPageStoresTwice(x: Item, y: Item, z: Item, a: string, ctx: Context)
    requires FetchedTwice(x, y, ctx) && z.capture.None? && Identity(z) != Identity(x)
    ensures
      var once := Swept(NOTHING_STORED, Preflight.Ok, [Partition(a, Page([x, z], false))], ctx).progress.store;
      var twice := Swept(once, Preflight.Ok, [Partition(a, Page([y, z], false))], ctx).progress.store;
      && once.observations == [RowOf(x, ctx)] && OncePerRun(once.observations, ctx.run)
      && twice.observations == [RowOf(x, ctx), RowOf(y, ctx)] && !OncePerRun(twice.observations, ctx.run)
  {
    hide Swept, NewOnes, Attempts, DoneAfter, DoneKeys, Known, MidPageStops, Subsequence, QueueRefers,
      DistinctIdentities, PageAttempts, Rows, SameKey, RowIdentity, Identity, OncePerRun;
    var first, second := Partition(a, Page([x, z], false)), Partition(a, Page([y, z], false));
    EachIdentityOncePerCall(NOTHING_STORED, Preflight.Ok, [first], ctx);
    NoKeysDone(ctx.run);
    TwoItemPage(x, z);
    TwoItemPage(y, z);
    assert [x, z] == [x] + [z] && [y, z] == [y] + [z];
    assert !Captured([x, z]) by { assert [x, z][1] == z; }
    LastPartition({}, first, {});
    NothingKnown(RowOf(x, ctx));
    NewFirst([], x, [z], ctx);
    UnfetchedIsNotNew([] + [RowOf(x, ctx)], z, ctx);
    OnlyRow(x, ctx);
    assert [x] + [] == [x] && [] + [RowOf(x, ctx)] == [RowOf(x, ctx)];
    OneRowIsOnce(RowOf(x, ctx), ctx.run);
    var once := Swept(NOTHING_STORED, Preflight.Ok, [first], ctx).progress.store;
    EachIdentityOncePerCall(once, Preflight.Ok, [second], ctx);
    LastPartition({}, second, {});
    OtherKey(x, y, ctx);
    OnlyRow(y, ctx);
    NewFirst([RowOf(x, ctx)], y, [z], ctx);
    UnfetchedIsNotNew([RowOf(x, ctx)] + [RowOf(y, ctx)], z, ctx);
    assert [y] + [] == [y] && [RowOf(x, ctx)] + [RowOf(y, ctx)] == [RowOf(x, ctx), RowOf(y, ctx)];
    TwoRowsOneIdentity(x, y, [RowOf(x, ctx), RowOf(y, ctx)], ctx);
  }

  lemma UnfetchedIsNotNew(observations: seq<Observation>, item: Item, ctx: Context)
    requires item.capture.None?
    ensures NewOnes(observations, [item], ctx) == []
  {
    assert [item][1..] == [];
    assert NewOnes(observations, [item], ctx) == NewOnes(observations, [], ctx);
  }

  // ---------------------------------------------------------------- the gate

  lemma OnlyTheRestIsOpen(done: set<string>, part: Partition, rest: Partition)
    requires part.key in done && rest.key !in done
    ensures OpenParts(done, [part] + [rest]) == [rest]
  {
    assert ([part] + [rest])[1..] == [rest] && [rest][1..] == [];
    assert OpenParts(done, [rest]) == [rest] + OpenParts(done + {rest.key}, []);
  }

  lemma CleanPage(key: string)
    ensures
      var parts := [Partition(key, Page([], false))];
      AllListed(parts) && Captured(Dedup(AllItems(parts))) && !SomeDegraded(parts)
  {
    var parts := [Partition(key, Page([], false))];
    assert parts[1..] == [];
    assert AllItems(parts) == PageItems(parts[0]) + AllItems([]);
  }

  /** A truncated page and a failed partition fail the gate; resuming passes it, the truncation being forgotten. */
  lemma ResumeForgetsDegradation(a: string, b: string, ctx: Context)
    requires a != b
    ensures
      var truncated := Partition(a, Page([], true));
      var once := Swept(NOTHING_STORED, Preflight.Ok, [truncated] + [Partition(b, DiscoveryRaises)], ctx);
      var twice := Swept(once.progress.store, Preflight.Ok, [truncated] + [Partition(b, Page([], false))], ctx);
      && !Summarized(once, ctx.run, Preflight.Ok, DiscoveryMethod.Direct).gatePassed
      && Summarized(twice, ctx.run, Preflight.Ok, DiscoveryMethod.Direct).gatePassed
  {
    hide Swept, NewOnes, Attempts, DoneAfter, DoneKeys, MidPageStops, Subsequence, QueueRefers, DistinctIdentities,
      PageAttempts, OpenParts, Dedup, AllItems, SomeDegraded;
    var truncated, rest := Partition(a, Page([], true)), Partition(b, Page([], false));
    var raises := Partition(b, DiscoveryRaises);
    var parts := [truncated] + [raises];
    EachIdentityOncePerCall(NOTHING_STORED, Preflight.Ok, parts, ctx);
    GatePassesIff(NOTHING_STORED, Preflight.Ok, parts, DiscoveryMethod.Direct, ctx);
    NoKeysDone(ctx.run);
    FreshIsAllOpen({}, parts);
    assert !AllListed(parts) by { assert parts[1] == raises; }
    NothingAttempted({});
    assert Finishes(truncated, {});
    FirstPartition({}, truncated, [raises]);
    assert {} + {a} == {a};
    LastPartition({a}, raises, {} + Identities([]));
    var once := Swept(NOTHING_STORED, Preflight.Ok, parts, ctx);
    OnlyTheRestIsOpen({a}, truncated, rest);
    CleanPage(b);
    GatePassesIff(once.progress.store, Preflight.Ok, [truncated] + [rest], DiscoveryMethod.Direct, ctx);
  }

  /** A single truncated page fails the gate once and passes it on the rerun, with nothing learned in between. */
  lemma RerunForgetsDegradation(a: string, ctx: Context)
    ensures
      var parts := [Partition(a, Page([], true))];
      var once := Swept(NOTHING_STORED, Preflight.Ok, parts, ctx);
      var twice := Swept(once.progress.store, Preflight.Ok, parts, ctx);
      && !Summarized(once, ctx.run, Preflight.Ok, DiscoveryMethod.Direct).gatePassed
      && Summarized(twice, ctx.run, Preflight.Ok, DiscoveryMethod.Direct).gatePassed
  {
    var parts := [Partition(a, Page([], true))];
    var start := Start(NOTHING_STORED, Preflight.Ok);
    assert parts[1..] == [];
    assert TakePartitions(start, parts, ctx) == TakePartitions(TakeOne(start, parts[0], ctx), [], ctx);
    RerunPasses(NOTHING_STORED, Preflight.Ok, parts, Preflight.Ok, parts, DiscoveryMethod.Direct, ctx);
  }
}
