/** Reversing merges in any order: where every link ends, when two orders agree, and which orders restore. */
module UndoOrders {
  import opened Prelude
  import opened Schema
  import opened MergeService
  import opened Engine
  import opened MergeForest
  import opened NestedUndo

  // ---------------------------------------------------------------- where links end

  /** Two reversals commute if and only if no link was moved by both merges. */
  lemma ReversalsCommuteIff(inv: Inventory, m: nat, n: nat, at: Time)
    requires ForeignKeys(inv) && ForestSound(inv) && m != n
    requires ActiveMerge(inv.merges, m) && ActiveMerge(inv.merges, n)
    ensures inv.merges[m].source < |inv.listings| && inv.merges[n].source < |inv.listings|
    ensures Owners(DoReverse(DoReverse(inv, m, at), n, at).links)
         == Owners(DoReverse(DoReverse(inv, n, at), m, at).links)
        <==> (forall k :: k in inv.merges[m].moved ==> k !in inv.merges[n].moved)
  {
    assert MergeRefers(inv.merges[m], inv) && MergeRefers(inv.merges[n], inv);
    var x := Owners(DoReverse(DoReverse(inv, m, at), n, at).links);
    var y := Owners(DoReverse(DoReverse(inv, n, at), m, at).links);
    forall k: nat | k in inv.merges[m].moved && k in inv.merges[n].moved ensures x[k] != y[k] {
    }
    assert (forall k: nat :: k in inv.merges[m].moved ==> k !in inv.merges[n].moved) ==> x == y;
  }

  /** Distinct unreversed merges, to be reversed in the order listed. */
  ghost predicate Reversible(inv: Inventory, order: seq<nat>) {
    && (forall a :: 0 <= a < |order| ==> ActiveMerge(inv.merges, order[a]) && MergeRefers(inv.merges[order[a]], inv))
    && (forall a, b :: 0 <= a < b < |order| ==> order[a] != order[b])
  }

  ghost function ReverseAll(inv: Inventory, order: seq<nat>, at: Time): (r: Inventory)
    requires Reversible(inv, order)
    ensures |r.merges| == |inv.merges| && |r.listings| == |inv.listings| && |r.links| == |inv.links|
    ensures forall m :: 0 <= m < |inv.merges| ==>
              r.merges[m].source == inv.merges[m].source && r.merges[m].moved == inv.merges[m].moved
  {
    if order == [] then inv
    else DoReverse(ReverseAll(inv, order[..|order| - 1], at), order[|order| - 1], at)
  }

  /** The last listed merge that moved link `k`. */
  function LastListed(merges: seq<Merge>, order: seq<nat>, k: nat): (m: Option<nat>)
    requires forall a :: 0 <= a < |order| ==> order[a] < |merges|
    ensures m.Some? ==> m.value in order && m.value < |merges|
  {
    if order == [] then None
    else if k in merges[order[|order| - 1]].moved then Some(order[|order| - 1])
    else LastListed(merges, order[..|order| - 1], k)
  }

  /** Its source; the link's present owner when no listed merge moved it. */
  function LastMover(inv: Inventory, order: seq<nat>, k: nat): nat
    requires k < |inv.links| && forall a :: 0 <= a < |order| ==> order[a] < |inv.merges|
  {
    match LastListed(inv.merges, order, k)
    case None => inv.links[k].listing
    case Some(m) => inv.merges[m].source
  }

  /** Reversing any list of merges, in any order: each link ends on the source of the last one that had moved it. */
  lemma {:induction false} ReversedInAnyOrder(inv: Inventory, order: seq<nat>, at: Time, k: nat)
    requires Reversible(inv, order) && k < |inv.links|
    ensures ReverseAll(inv, order, at).links[k].listing == LastMover(inv, order, k)
  {
    hide DoReverse;
    if order != [] {
      var front, last := order[..|order| - 1], order[|order| - 1];
      ReversedInAnyOrder(inv, front, at, k);
      ReversedOwner(ReverseAll(inv, front, at), last, at, k);
    }
  }

  lemma ReversibleExists(inv: Inventory, order: seq<nat>)
    requires Reversible(inv, order)
    ensures forall a :: 0 <= a < |order| ==> order[a] < |inv.merges|
  {
  }

  ghost predicate SameMover(inv: Inventory, x: seq<nat>, y: seq<nat>, k: nat)
    requires Reversible(inv, x) && Reversible(inv, y) && k < |inv.links|
  {
    ReversibleExists(inv, x);
    ReversibleExists(inv, y);
    LastMover(inv, x, k) == LastMover(inv, y, k)
  }

  ghost predicate SameLastMovers(inv: Inventory, x: seq<nat>, y: seq<nat>)
    requires Reversible(inv, x) && Reversible(inv, y)
  {
    forall k: nat :: k < |inv.links| ==> SameMover(inv, x, y, k)
  }

  ghost function OwnersAfter(inv: Inventory, order: seq<nat>, at: Time): (owners: seq<nat>)
    requires Reversible(inv, order)
  {
    Owners(ReverseAll(inv, order, at).links)
  }

  lemma OwnerAfter(inv: Inventory, order: seq<nat>, at: Time, k: nat)
    requires Reversible(inv, order) && k < |inv.links|
    ensures |OwnersAfter(inv, order, at)| == |inv.links|
    ensures OwnersAfter(inv, order, at)[k] == LastMover(inv, order, k)
  {
    ReversedInAnyOrder(inv, order, at, k);
  }

  function ReverseSteps(order: seq<nat>, actor: Actor, at: Time): seq<Step> {
    seq(|order|, a requires 0 <= a < |order| => ReverseStep(order[a], actor, at))
  }

  /** Reversing the list is what a run of reversals by a human does. */
  lemma {:induction false} ReverseAllIsARun(inv: Inventory, order: seq<nat>, actor: Actor, at: Time)
    requires ForeignKeys(inv) && Reversible(inv, order) && actor.human
    ensures Run(inv, ReverseSteps(order, actor, at)) == ReverseAll(inv, order, at)
  {
    hide ForeignKeys, DoReverse, Apply;
    if order != [] {
      var front, last := order[..|order| - 1], order[|order| - 1];
      ReverseAllIsARun(inv, front, actor, at);
      RunSnoc(inv, ReverseSteps(front, actor, at), ReverseStep(last, actor, at));
      assert ReverseSteps(order, actor, at) == ReverseSteps(front, actor, at) + [ReverseStep(last, actor, at)];
      StillActive(inv, order, at);
      ReversalApplies(ReverseAll(inv, front, at), last, actor, at);
    }
  }

  lemma ReversalApplies(inv: Inventory, m: nat, actor: Actor, at: Time)
    requires ForeignKeys(inv) && ActiveMerge(inv.merges, m) && actor.human
    ensures inv.merges[m].source < |inv.listings|
    ensures Apply(inv, ReverseStep(m, actor, at)) == DoReverse(inv, m, at)
  {
    hide ForeignKeys, DoReverse;
    ReverseKeepsKeys(inv, m, at);
  }

  lemma StillActive(inv: Inventory, order: seq<nat>, at: Time)
    requires Reversible(inv, order) && order != []
    ensures ActiveMerge(ReverseAll(inv, order[..|order| - 1], at).merges, order[|order| - 1])
  {
    AllButListedActive(inv, order[..|order| - 1], at);
    assert order[|order| - 1] !in order[..|order| - 1];
  }

  lemma {:induction false} AllButListedActive(inv: Inventory, order: seq<nat>, at: Time)
    requires Reversible(inv, order)
    ensures forall m: nat :: ActiveMerge(ReverseAll(inv, order, at).merges, m) <==>
              ActiveMerge(inv.merges, m) && m !in order
  {
    hide DoReverse;
    if order != [] {
      var front, last := order[..|order| - 1], order[|order| - 1];
      AllButListedActive(inv, front, at);
      assert order == front + [last];
      ReversalEnds(ReverseAll(inv, front, at), last, at);
    }
  }

  lemma ReversalEnds(inv: Inventory, m: nat, at: Time)
    requires m < |inv.merges| && inv.merges[m].source < |inv.listings|
    ensures forall n: nat :: ActiveMerge(DoReverse(inv, m, at).merges, n) <==> ActiveMerge(inv.merges, n) && n != m
  {
    hide MoveBack;
  }

  /** Two orders end with the same owners if and only if the last movers of every link had retired the same listing. */
  lemma OrdersAgreeIff(inv: Inventory, x: seq<nat>, y: seq<nat>, at: Time)
    requires Reversible(inv, x) && Reversible(inv, y)
    ensures OwnersAfter(inv, x, at) == OwnersAfter(inv, y, at) <==> SameLastMovers(inv, x, y)
  {
    hide ReverseAll, OwnersAfter, Reversible, DoReverse;
    var p, q := OwnersAfter(inv, x, at), OwnersAfter(inv, y, at);
    OwnersCount(inv, x, at);
    OwnersCount(inv, y, at);
    forall k: nat | k < |inv.links| ensures p[k] == q[k] <==> SameMover(inv, x, y, k) {
      OwnerAfter(inv, x, at, k);
      OwnerAfter(inv, y, at, k);
    }
  }

  lemma OwnersCount(inv: Inventory, order: seq<nat>, at: Time)
    requires Reversible(inv, order)
    ensures |OwnersAfter(inv, order, at)| == |inv.links|
  {
  }

  // ---------------------------------------------------------------- which orders restore

  /** The oldest merge from number `from` on that moved link `k`. */
  function OldestMover(merges: seq<Merge>, from: nat, k: nat): (m: Option<nat>)
    ensures m.Some? ==> from <= m.value < |merges|
    decreases |merges| - from
  {
    if from >= |merges| then None
    else if k in merges[from].moved then Some(from)
    else OldestMover(merges, from + 1, k)
  }

  lemma {:induction false} OldestMoverAppend(merges: seq<Merge>, merge: Merge, from: nat, k: nat)
    requires from <= |merges|
    ensures OldestMover(merges + [merge], from, k)
         == if OldestMover(merges, from, k).Some? then OldestMover(merges, from, k)
            else if k in merge.moved then Some(|merges|) else None
    decreases |merges| - from
  {
    if from < |merges| {
      OldestMoverAppend(merges, merge, from + 1, k);
    }
  }

  /** Since `start` nothing was reversed, and the oldest merge that moved a link took it from its owner at the start. */
  ghost predicate TracesBack(start: Inventory, inv: Inventory) {
    && start.merges <= inv.merges && |start.links| <= |inv.links|
    && (forall m: nat :: |start.merges| <= m < |inv.merges| ==> ActiveMerge(inv.merges, m))
    && (forall k: nat :: k < |start.links| ==> TracedBack(start, inv, k))
  }

  predicate TracedBack(start: Inventory, inv: Inventory, k: nat)
    requires k < |start.links| <= |inv.links|
  {
    match OldestMover(inv.merges, |start.merges|, k)
    case None => inv.links[k].listing == start.links[k].listing
    case Some(m) => inv.merges[m].source == start.links[k].listing
  }

  lemma MergeTracesBack(start: Inventory, inv: Inventory, source: nat, target: nat, now: Time)
    requires TracesBack(start, inv) && source < |inv.listings| && target < |inv.listings| && source != target
    ensures TracesBack(start, DoMerge(inv, source, target, now))
  {
    hide DoMerge, OldestMover, MovedLinks;
    var r := DoMerge(inv, source, target, now);
    MergeRemembers(inv, source, target, now);
    var merge := r.merges[|inv.merges|];
    assert r.merges == inv.merges + [merge];
    forall m: nat | |start.merges| <= m < |r.merges| ensures ActiveMerge(r.merges, m) {
      assert m < |inv.merges| ==> ActiveMerge(inv.merges, m);
    }
    forall k: nat | k < |start.links| ensures TracedBack(start, r, k) {
      assert TracedBack(start, inv, k);
      MergedOwner(inv, source, target, now, k);
      OldestMoverAppend(inv.merges, merge, |start.merges|, k);
    }
  }

  lemma StepTracesBack(start: Inventory, inv: Inventory, step: Step)
    requires ForeignKeys(inv) && TracesBack(start, inv) && !step.ReverseStep?
    ensures TracesBack(start, Apply(inv, step))
  {
    hide ForeignKeys, Apply, MovesNothing, OldestMover, DoMerge;
    var r := Apply(inv, step);
    if !MovesLinks(step) {
      OtherStepKeepsOwners(inv, step);
      assert forall k: nat :: k < |start.links| && TracedBack(start, inv, k) ==> TracedBack(start, r, k);
    } else if MovesNothing(inv, step) {
      RefusedStep(inv, step);
      assert forall k: nat :: k < |start.links| && TracedBack(start, inv, k) ==> TracedBack(start, r, k);
    } else {
      OpeningMerges(inv, step);
      var (source, target) := MergedPair(inv, step);
      MergeTracesBack(start, inv, source, target, step.now);
      var merged := DoMerge(inv, source, target, step.now);
      assert forall k: nat :: k < |start.links| && TracedBack(start, merged, k) ==> TracedBack(start, r, k);
    }
  }

  lemma {:induction false} RunTracesBack(start: Inventory, inv: Inventory, steps: seq<Step>)
    requires ForeignKeys(inv) && TracesBack(start, inv) && NoReversals(steps)
    ensures TracesBack(start, Run(inv, steps))
    decreases |steps|
  {
    hide ForeignKeys, Apply, TracesBack;
    if steps != [] {
      ApplyKeepsKeys(inv, steps[0]);
      StepTracesBack(start, inv, steps[0]);
      RunTracesBack(start, Apply(inv, steps[0]), steps[1..]);
    }
  }

  /** The last listed merge that moved the link is the oldest since the start that did, or neither exists. */
  ghost predicate EndsWithOldest(start: Inventory, inv: Inventory, order: seq<nat>, k: nat)
    requires Reversible(inv, order)
  {
    ReversibleExists(inv, order);
    LastListed(inv.merges, order, k) == OldestMover(inv.merges, |start.merges|, k)
  }

  lemma OwnerRestoredIff(start: Inventory, inv: Inventory, order: seq<nat>, at: Time, k: nat)
    requires LinksLive(start) && ForestSound(inv) && ForeignKeys(inv) && TracesBack(start, inv)
    requires Reversible(inv, order) && k < |start.links|
    ensures |OwnersAfter(inv, order, at)| == |inv.links|
    ensures OwnersAfter(inv, order, at)[k] == start.links[k].listing <==> EndsWithOldest(start, inv, order, k)
  {
    hide OwnersAfter, OldestMover, LastListed;
    OwnerAfter(inv, order, at, k);
    ReversibleExists(inv, order);
    assert TracedBack(start, inv, k);
    var last, oldest := LastListed(inv.merges, order, k), OldestMover(inv.merges, |start.merges|, k);
    assert LinkRefers(inv.links[k], inv) && !IsMerged(inv, inv.links[k].listing);
    if last.Some? {
      SourceIsMerged(inv, last.value);
    }
    if oldest.Some? {
      SourceIsMerged(inv, oldest.value);
    }
  }

  lemma SourceIsMerged(inv: Inventory, m: nat)
    requires ForeignKeys(inv) && ForestSound(inv) && ActiveMerge(inv.merges, m)
    ensures IsMerged(inv, inv.merges[m].source)
  {
    assert MergeRefers(inv.merges[m], inv) && HasActiveMerge(inv.merges, inv.merges[m].source);
  }

  /**
   * After any run without reversals, reversing a list of merges restores the owners the links had at its start if and
   * only if every link's last listed mover is the oldest merge of the run that moved it.
   */
  lemma OrderRestoresIff(start: Inventory, steps: seq<Step>, order: seq<nat>, at: Time)
    requires ForeignKeys(start) && ForestSound(start) && NoReversals(steps) && Reversible(Run(start, steps), order)
    ensures
      var inv := Run(start, steps);
      && |start.links| <= |OwnersAfter(inv, order, at)|
      && (OwnersAfter(inv, order, at)[..|start.links|] == Owners(start.links) <==>
            forall k: nat :: k < |start.links| ==> EndsWithOldest(start, inv, order, k))
  {
    hide ForeignKeys, ForestSound, Reversible, OwnersAfter, EndsWithOldest, TracesBack;
    var inv := Run(start, steps);
    assert TracesBack(start, start) by { StartTracesBack(start); }
    RunTracesBack(start, start, steps);
    RunKeepsForest(start, steps);
    var after := OwnersAfter(inv, order, at);
    assert LinksLive(start) by { SoundIsLive(start); }
    OwnersCount(inv, order, at);
    assert |start.links| <= |inv.links| by { TracesAll(start, inv); }
    forall k: nat | k < |start.links|
      ensures after[k] == start.links[k].listing <==> EndsWithOldest(start, inv, order, k)
    {
      OwnerRestoredIff(start, inv, order, at, k);
    }
    assert forall k: nat :: k < |start.links| ==> after[..|start.links|][k] == after[k];
    assert forall k: nat :: k < |start.links| ==> Owners(start.links)[k] == start.links[k].listing;
  }

  lemma StartTracesBack(start: Inventory)
    ensures TracesBack(start, start)
  {
  }

  lemma SoundIsLive(inv: Inventory)
    requires ForestSound(inv)
    ensures LinksLive(inv)
  {
  }

  lemma TracesAll(start: Inventory, inv: Inventory)
    requires TracesBack(start, inv)
    ensures |start.links| <= |inv.links|
  {
  }
}
