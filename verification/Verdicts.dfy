/** Merges, reversals and verdicts in the columns of the tables: who survives, what moves, what is refused. */
module Verdicts {
  import opened Prelude
  import opened Schema
  import opened MergeService

  // ---------------------------------------------------------------- merge and reverse

  /** Refused in this order: a manual merge by nobody human, a listing with itself, unknown listings, merged ones. */
  lemma MergeRefused(inv: Inventory, source: nat, target: nat, actor: Actor, now: Time)
    ensures
      var r := MergeListings(inv, source, target, actor, now);
      var known := source < |inv.listings| && target < |inv.listings|;
      && (r == Failure(HumanRequired) <==> actor.manual && !actor.human)
      && (r == Failure(RowNotFound) <==> (actor.manual ==> actor.human) && source != target && !known)
      && (r == Failure(Rejected) <==>
            && (actor.manual ==> actor.human)
            && (source == target
                || (known && (inv.listings[source].lifecycle == Lifecycle.Merged
                              || inv.listings[target].lifecycle == Lifecycle.Merged))))
      && (r.Failure? ==> r.error in {HumanRequired, RowNotFound, Rejected})
  {
  }

  /**
   * All links of the source go over to the target; the source is MERGED, the target as fresh as the fresher of both.
   */
  ghost predicate MergedInto(inv: Inventory, r: Inventory, source: nat, target: nat, now: Time)
    requires source < |inv.listings| && target < |inv.listings|
  {
    && |r.links| == |inv.links|
    && (forall k :: 0 <= k < |inv.links| ==>
          r.links[k] == if inv.links[k].listing == source then inv.links[k].(listing := target) else inv.links[k])
    && |r.listings| == |inv.listings|
    && (forall j :: 0 <= j < |inv.listings| && j != source && j != target ==> r.listings[j] == inv.listings[j])
    && r.listings[source] == inv.listings[source].(lifecycle := Lifecycle.Merged)
    && r.listings[target] == inv.listings[target].(lastSeenAt :=
         if inv.listings[source].lastSeenAt > inv.listings[target].lastSeenAt then inv.listings[source].lastSeenAt
         else inv.listings[target].lastSeenAt)
    && |r.merges| == |inv.merges| + 1 && r.merges[..|inv.merges|] == inv.merges
    && Remembers(r.merges[|inv.merges|], inv.links, source, target, now)
    && var event := Event(EventKey(source, EventKind.Merged, ByTarget(target)), now, None, None);
       r.events == inv.events
         + if exists e :: 0 <= e < |inv.events| && inv.events[e].key == event.key then [] else [event]
  }

  /** The merge row: the pair, and exactly the links that were the source's. */
  ghost predicate Remembers(merge: Merge, links: seq<Link>, source: nat, target: nat, now: Time) {
    && merge.source == source && merge.target == target && merge.performedAt == now && merge.reversedAt == None
    && (forall k: nat :: k in merge.moved <==> k < |links| && links[k].listing == source)
  }

  lemma MergeColumns(inv: Inventory, source: nat, target: nat, actor: Actor, now: Time)
    requires MergeListings(inv, source, target, actor, now).Success?
    ensures source < |inv.listings| && target < |inv.listings| && source != target
    ensures
      var r := MergeListings(inv, source, target, actor, now).value;
      && MergedInto(inv, r, source, target, now)
      && r == inv.(links := r.links, listings := r.listings, merges := r.merges, events := r.events)
  {
  }

  /** Refused in this order: nobody human, an unknown merge, one already reversed. */
  lemma ReverseRefused(inv: Inventory, m: nat, actor: Actor, now: Time)
    requires ForeignKeys(inv)
    ensures
      var r := ReverseMerge(inv, m, actor, now);
      && (r == Failure(HumanRequired) <==> !actor.human)
      && (r == Failure(RowNotFound) <==> actor.human && m >= |inv.merges|)
      && (r == Failure(Rejected) <==> actor.human && m < |inv.merges| && inv.merges[m].reversedAt.Some?)
      && (r.Failure? ==> r.error in {HumanRequired, RowNotFound, Rejected})
  {
    hide ForeignKeys;
  }

  /** Exactly the remembered links return to the source, which goes to review; the target and all stamps stay. */
  lemma ReverseColumns(inv: Inventory, m: nat, actor: Actor, now: Time)
    requires ForeignKeys(inv) && ReverseMerge(inv, m, actor, now).Success?
    ensures m < |inv.merges| && inv.merges[m].source < |inv.listings|
    ensures
      var r, merge := ReverseMerge(inv, m, actor, now).value, inv.merges[m];
      && |r.links| == |inv.links|
      && (forall k :: 0 <= k < |inv.links| ==>
            r.links[k] == if k in merge.moved then inv.links[k].(listing := merge.source) else inv.links[k])
      && r.listings == inv.listings[merge.source :=
           inv.listings[merge.source].(lifecycle := Lifecycle.ReviewRequired)]
      && r.merges == inv.merges[m := merge.(reversedAt := Some(now))]
      && r == inv.(links := r.links, listings := r.listings, merges := r.merges)
  {
    assert MergeRefers(inv.merges[m], inv);
  }

  // ---------------------------------------------------------------- verdicts

  /** Candidate `c` is settled, and its OPEN review issues with it; no other candidate and no other issue changes. */
  predicate Settles(inv: Inventory, r: Inventory, c: nat, status: CandidateStatus)
    requires c < |inv.candidates|
  {
    && r.candidates == inv.candidates[c := inv.candidates[c].(status := status)]
    && |r.facts.issues| == |inv.facts.issues|
    && (forall n :: 0 <= n < |inv.facts.issues| ==>
          r.facts.issues[n] ==
            if inv.facts.issues[n].kind == PossibleDuplicate(c) && inv.facts.issues[n].status == IssueStatus.Open
            then inv.facts.issues[n].(status := IssueStatus.Resolved) else inv.facts.issues[n])
    && r.facts == inv.facts.(issues := r.facts.issues)
  }

  /**
   * A verdict needs a human, a PENDING candidate and, for a duplicate, a survivor of the pair or none named and both
   * listings unmerged; each refusal has its error and no effect.
   */
  lemma VerdictRefused(inv: Inventory, c: nat, verdict: Verdict, actor: Actor, now: Time)
    requires ForeignKeys(inv)
    ensures
      var r := ResolveDuplicateCandidate(inv, c, verdict, actor, now);
      && (r == Failure(HumanRequired) <==> !actor.human)
      && (r == Failure(RowNotFound) <==> actor.human && c >= |inv.candidates|)
      && (r == Failure(Rejected) <==>
            && actor.human && c < |inv.candidates|
            && var row := inv.candidates[c];
            || row.status != CandidateStatus.Pending
            || (verdict.duplicate && verdict.survivor.Some? && verdict.survivor.value !in {row.a, row.b})
            || (verdict.duplicate && row.b < |inv.listings| && row.a < |inv.listings|
                && (inv.listings[row.a].lifecycle == Lifecycle.Merged
                    || inv.listings[row.b].lifecycle == Lifecycle.Merged)))
      && (r.Failure? ==> r.error in {HumanRequired, RowNotFound, Rejected})
  {
    if c < |inv.candidates| {
      assert CandidateRefers(inv.candidates[c], inv);
    }
  }

  /** The listing a verdict keeps: the one it names, the first of the pair when it names none. */
  function Kept(row: DuplicateCandidate, verdict: Verdict): nat {
    match verdict.survivor
    case Some(named) => named
    case None => row.a
  }

  /**
   * After a verdict of duplicate the kept listing has its lifecycle, the other of the pair is MERGED into it, and every
   * link of the pair is on the kept one; the candidate is CONFIRMED_DUPLICATE and its issues are resolved.
   */
  lemma DuplicateVerdict(inv: Inventory, c: nat, verdict: Verdict, actor: Actor, now: Time)
    requires ForeignKeys(inv) && verdict.duplicate
    requires ResolveDuplicateCandidate(inv, c, verdict, actor, now).Success?
    ensures c < |inv.candidates| && inv.candidates[c].a < inv.candidates[c].b < |inv.listings|
    ensures
      var r := ResolveDuplicateCandidate(inv, c, verdict, actor, now).value;
      var row := inv.candidates[c];
      var kept := Kept(row, verdict);
      var away := if kept == row.a then row.b else row.a;
      && kept in {row.a, row.b} && |r.listings| == |inv.listings| && |r.links| == |inv.links|
      && r.listings[kept].lifecycle == inv.listings[kept].lifecycle != Lifecycle.Merged
      && r.listings[away].lifecycle == Lifecycle.Merged
      && MergedInto(inv, r, away, kept, now)
      && (forall k :: 0 <= k < |inv.links| && inv.links[k].listing in {row.a, row.b} ==> r.links[k].listing == kept)
      && Settles(inv, r, c, ConfirmedDuplicate)
  {
    assert CandidateRefers(inv.candidates[c], inv);
    var row := inv.candidates[c];
    var kept := Kept(row, verdict);
    MergeColumns(inv, if kept == row.a then row.b else row.a, kept, actor.(manual := true), now);
  }

  /** After a verdict of distinct only the candidate and its issues changed. */
  lemma DistinctVerdict(inv: Inventory, c: nat, verdict: Verdict, actor: Actor, now: Time)
    requires !verdict.duplicate && ResolveDuplicateCandidate(inv, c, verdict, actor, now).Success?
    ensures c < |inv.candidates|
    ensures
      var r := ResolveDuplicateCandidate(inv, c, verdict, actor, now).value;
      Settles(inv, r, c, ConfirmedDistinct) && r == inv.(candidates := r.candidates, facts := r.facts)
  {
  }
}
