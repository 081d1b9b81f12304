/** Manual merges, their reversal, and the verdict on a duplicate candidate. */
module MergeService {
  import opened Prelude
  import opened Schema

  /** Who acts, and whether the reason code is MANUAL. */
  datatype Actor = Actor(human: bool, manual: bool)

  predicate LinkOf(link: Link, listing: nat) {
    link.listing == listing
  }

  /** UPDATE ... SET canonical_listing_id = target WHERE canonical_listing_id = source. */
  function Relink(links: seq<Link>, source: nat, target: nat): seq<Link> {
    seq(|links|, k requires 0 <= k < |links| =>
      if LinkOf(links[k], source) then links[k].(listing := target) else links[k])
  }

  function MovedLinks(links: seq<Link>, source: nat): seq<nat> {
    Where(links, (l: Link) => LinkOf(l, source))
  }

  /** UPDATE ... SET canonical_listing_id = source WHERE id IN moved. */
  function MoveBack(links: seq<Link>, moved: seq<nat>, source: nat): seq<Link> {
    seq(|links|, k requires 0 <= k < |links| =>
      if k in moved then links[k].(listing := source) else links[k])
  }

  function MergedEvent(source: nat, target: nat, now: Time): Event {
    Event(EventKey(source, EventKind.Merged, ByTarget(target)), now, None, None)
  }

  function CheckMerge(listings: seq<Listing>, source: nat, target: nat, actor: Actor): Option<Error> {
    if actor.manual && !actor.human then Some(HumanRequired)
    else if source == target then Some(Rejected)
    else if source >= |listings| || target >= |listings| then Some(RowNotFound)
    else if listings[source].lifecycle == Lifecycle.Merged then Some(Rejected)
    else if listings[target].lifecycle == Lifecycle.Merged then Some(Rejected)
    else None
  }

  /** The merge itself, its checks passed. */
  function DoMerge(inv: Inventory, source: nat, target: nat, now: Time): Inventory
    requires source < |inv.listings| && target < |inv.listings| && source != target
  {
    var retired := inv.listings[source].(lifecycle := Lifecycle.Merged);
    var survivor := inv.listings[target].(
      lastSeenAt := Max(inv.listings[target].lastSeenAt, inv.listings[source].lastSeenAt));
    inv.(links := Relink(inv.links, source, target),
         merges := inv.merges + [Merge(source, target, MovedLinks(inv.links, source), now, None)],
         listings := inv.listings[source := retired][target := survivor],
         events := Emit(inv.events, MergedEvent(source, target, now)))
  }

  function MergeListings(inv: Inventory, source: nat, target: nat, actor: Actor, now: Time): Result<Inventory> {
    var problem := CheckMerge(inv.listings, source, target, actor);
    if problem.Some? then Failure(problem.value) else Success(DoMerge(inv, source, target, now))
  }

  function CheckReverse(merges: seq<Merge>, m: nat, actor: Actor): Option<Error> {
    if !actor.human then Some(HumanRequired)
    else if m >= |merges| then Some(RowNotFound)
    else if merges[m].reversedAt.Some? then Some(Rejected)
    else None
  }

  function DoReverse(inv: Inventory, m: nat, now: Time): Inventory
    requires m < |inv.merges| && inv.merges[m].source < |inv.listings|
  {
    var source := inv.merges[m].source;
    inv.(links := MoveBack(inv.links, inv.merges[m].moved, source),
         listings := inv.listings[source := inv.listings[source].(lifecycle := Lifecycle.ReviewRequired)],
         merges := inv.merges[m := inv.merges[m].(reversedAt := Some(now))])
  }

  function ReverseMerge(inv: Inventory, m: nat, actor: Actor, now: Time): Result<Inventory>
    requires ForeignKeys(inv)
  {
    var problem := CheckReverse(inv.merges, m, actor);
    if problem.Some? then Failure(problem.value) else Success(DoReverse(inv, m, now))
  }

  // ---------------------------------------------------------------- duplicate candidates

  datatype Verdict = Verdict(duplicate: bool, survivor: Option<nat>)

  function CheckCandidate(candidates: seq<DuplicateCandidate>, c: nat, verdict: Verdict, actor: Actor): Option<Error> {
    if !actor.human then Some(HumanRequired)
    else if c >= |candidates| then Some(RowNotFound)
    else if candidates[c].status != CandidateStatus.Pending then Some(Rejected)
    else if verdict.duplicate && verdict.survivor.Some?
      && verdict.survivor.value != candidates[c].a && verdict.survivor.value != candidates[c].b then Some(Rejected)
    else None
  }

  function Survivor(candidate: DuplicateCandidate, verdict: Verdict): nat {
    if verdict.survivor.Some? then verdict.survivor.value else candidate.a
  }

  function MergedAway(candidate: DuplicateCandidate, verdict: Verdict): nat {
    if Survivor(candidate, verdict) == candidate.a then candidate.b else candidate.a
  }

  function CloseIssue(issue: Issue, c: nat): Issue {
    if issue.status == IssueStatus.Open && issue.kind == PossibleDuplicate(c)
    then issue.(status := IssueStatus.Resolved) else issue
  }

  function CloseIssues(issues: seq<Issue>, c: nat): seq<Issue> {
    seq(|issues|, i requires 0 <= i < |issues| => CloseIssue(issues[i], c))
  }

  function Settle(inv: Inventory, c: nat, status: CandidateStatus): Inventory
    requires c < |inv.candidates|
  {
    inv.(candidates := inv.candidates[c := inv.candidates[c].(status := status)],
         facts := inv.facts.(issues := CloseIssues(inv.facts.issues, c)))
  }

  function ResolveDuplicateCandidate(
      inv: Inventory, c: nat, verdict: Verdict, actor: Actor, now: Time): Result<Inventory> {
    var problem := CheckCandidate(inv.candidates, c, verdict, actor);
    if problem.Some? then
      Failure(problem.value)
    else if !verdict.duplicate then
      Success(Settle(inv, c, ConfirmedDistinct))
    else
      var candidate := inv.candidates[c];
      var merged :- MergeListings(inv, MergedAway(candidate, verdict), Survivor(candidate, verdict),
                                  actor.(manual := true), now);
      Success(Settle(merged, c, ConfirmedDuplicate))
  }

  // ---------------------------------------------------------------- the service object

  class MergeDesk {
    const db: Database

    constructor (db: Database)
      ensures this.db == db
    {
      this.db := db;
    }

    method Merge(source: nat, target: nat, actor: Actor, now: Time) returns (r: Result<nat>)
      modifies db`links, db`merges, db`listings, db`events
      ensures
        var expected := MergeListings(old(db.State()), source, target, actor, now);
        if expected.Success? then r == Success(|old(db.merges)|) && db.State() == expected.value
        else r == Failure(expected.error) && db.State() == old(db.State())
    {
      hide DoMerge;
      var problem := CheckMerge(db.listings, source, target, actor);
      if problem.Some? {
        return Failure(problem.value);
      }
      var merge := Combine(source, target, now);
      return Success(merge);
    }

    /** The merge once its checks passed. */
    method Combine(source: nat, target: nat, now: Time) returns (merge: nat)
      requires source < |db.listings| && target < |db.listings| && source != target
      modifies db`links, db`merges, db`listings, db`events
      ensures merge == |old(db.merges)| && db.State() == DoMerge(old(db.State()), source, target, now)
    {
      hide Relink, MovedLinks, Emit;
      var moved := MovedLinks(db.links, source);
      db.links := Relink(db.links, source, target);
      merge := |db.merges|;
      db.merges := db.merges + [Schema.Merge(source, target, moved, now, None)];
      Retire(source, target);
      var _ := db.EmitEvent(MergedEvent(source, target, now));
    }

    method Retire(source: nat, target: nat)
      requires source < |db.listings| && target < |db.listings| && source != target
      modifies db`listings
      ensures
        var seen := Max(old(db.listings)[target].lastSeenAt, old(db.listings)[source].lastSeenAt);
        db.listings == old(db.listings)[source := old(db.listings)[source].(lifecycle := Lifecycle.Merged)]
                                       [target := old(db.listings)[target].(lastSeenAt := seen)]
    {
      db.listings := db.listings[source := db.listings[source].(lifecycle := Lifecycle.Merged)];
      db.listings := db.listings[target := db.listings[target].(
        lastSeenAt := Max(db.listings[target].lastSeenAt, db.listings[source].lastSeenAt))];
    }

    method Reverse(m: nat, actor: Actor, now: Time) returns (r: Result<()>)
      requires ForeignKeys(db.State())
      modifies db`links, db`merges, db`listings
      ensures
        var expected := ReverseMerge(old(db.State()), m, actor, now);
        if expected.Success? then r == Success(()) && db.State() == expected.value
        else r == Failure(expected.error) && db.State() == old(db.State())
    {
      var problem := CheckReverse(db.merges, m, actor);
      if problem.Some? {
        return Failure(problem.value);
      }
      var source, moved := db.merges[m].source, db.merges[m].moved;
      if moved != [] {
        db.links := MoveBack(db.links, moved, source);
      }
      assert moved == [] ==> MoveBack(db.links, moved, source) == db.links;
      db.listings := db.listings[source := db.listings[source].(lifecycle := Lifecycle.ReviewRequired)];
      db.merges := db.merges[m := db.merges[m].(reversedAt := Some(now))];
      return Success(());
    }

    method ResolveCandidateIssues(c: nat)
      modifies db`issues
      ensures db.issues == CloseIssues(old(db.issues), c)
    {
      for i := 0 to |db.issues|
        invariant |db.issues| == |old(db.issues)|
        invariant forall j :: 0 <= j < i ==> db.issues[j] == CloseIssue(old(db.issues)[j], c)
        invariant forall j :: i <= j < |db.issues| ==> db.issues[j] == old(db.issues)[j]
      {
        if db.issues[i].status == IssueStatus.Open && db.issues[i].kind == PossibleDuplicate(c) {
          db.issues := db.issues[i := db.issues[i].(status := IssueStatus.Resolved)];
        }
      }
    }

    method ResolveCandidate(c: nat, verdict: Verdict, actor: Actor, now: Time) returns (r: Result<()>)
      modifies db
      ensures
        var expected := ResolveDuplicateCandidate(old(db.State()), c, verdict, actor, now);
        if expected.Success? then r == Success(()) && db.State() == expected.value
        else r == Failure(expected.error) && db.State() == old(db.State())
    {
      hide CheckMerge, DoMerge, CloseIssues;
      var problem := CheckCandidate(db.candidates, c, verdict, actor);
      if problem.Some? {
        return Failure(problem.value);
      }
      var candidate := db.candidates[c];
      var status := ConfirmedDistinct;
      if verdict.duplicate {
        var survivor := Survivor(candidate, verdict);
        var mergedAway := if survivor == candidate.a then candidate.b else candidate.a;
        var _ :- Merge(mergedAway, survivor, actor.(manual := true), now);
        status := ConfirmedDuplicate;
      }
      db.candidates := db.candidates[c := db.candidates[c].(status := status)];
      ResolveCandidateIssues(c);
      return Success(());
    }
  }
}
