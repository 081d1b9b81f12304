/** Why identity and freshness are promised without reversals only, and exactly when a reversal keeps them. */
module ReversalIdentity {
  import opened Prelude
  import opened Schema
  import opened MergeService
  import opened MergeForest
  import opened Identity

  /** While the listing was merged away, its unit was given no other live listing. */
  predicate UnitStillFree(inv: Inventory, source: nat)
    requires source < |inv.listings|
  {
    inv.listings[source].unit.Some? ==>
      forall i :: 0 <= i < |inv.listings| && i != source && inv.listings[i].unit == inv.listings[source].unit ==>
        inv.listings[i].lifecycle == Lifecycle.Merged
  }

  /** The links that come back were not seen again in between, and one of them carries the listing's own stamp. */
  ghost predicate ReturnsFresh(inv: Inventory, merge: Merge)
    requires MergeRefers(merge, inv)
  {
    var seen := inv.listings[merge.source].lastSeenAt;
    && (exists k :: k in merge.moved && inv.links[k].lastSeenAt == seen)
    && (forall k :: k in merge.moved ==> inv.links[k].lastSeenAt <= seen)
  }

  /** No live listing owes its stamp only to links that go back. */
  ghost predicate LeavesFresh(inv: Inventory, moved: seq<nat>) {
    forall i: nat :: i < |inv.listings| && !IsMerged(inv, i) ==> exists k: nat :: NewestLink(inv, i, k) && k !in moved
  }

  lemma MovedBack(inv: Inventory, m: nat, now: Time, k: nat)
    requires m < |inv.merges| && inv.merges[m].source < |inv.listings| && k < |inv.links|
    ensures
      var r := DoReverse(inv, m, now);
      && |r.links| == |inv.links| && r.links[k].lastSeenAt == inv.links[k].lastSeenAt
      && r.links[k].listing == if k in inv.merges[m].moved then inv.merges[m].source else inv.links[k].listing
  {
  }

  /** A merged listing owns no link, and a reversal leaves every freshness stamp alone. */
  lemma SourceHasNoLinks(inv: Inventory, m: nat)
    requires ForestSound(inv) && ActiveMerge(inv.merges, m) && inv.merges[m].source < |inv.listings|
    ensures forall k :: 0 <= k < |inv.links| ==> inv.links[k].listing != inv.merges[m].source
  {
    var source := inv.merges[m].source;
    assert IsMerged(inv, source) <==> HasActiveMerge(inv.merges, source);
  }

  lemma ReversedShape(inv: Inventory, m: nat, now: Time)
    requires m < |inv.merges| && inv.merges[m].source < |inv.listings|
    ensures
      var r := DoReverse(inv, m, now);
      && |r.listings| == |inv.listings| && |r.links| == |inv.links|
      && r.listings[inv.merges[m].source].lastSeenAt == inv.listings[inv.merges[m].source].lastSeenAt
  {
  }

  lemma SourceFreshIff(inv: Inventory, m: nat, now: Time)
    requires ForeignKeys(inv) && ForestSound(inv) && ActiveMerge(inv.merges, m) && MergeRefers(inv.merges[m], inv)
    ensures
      var r := DoReverse(inv, m, now);
      |r.listings| == |inv.listings| && (FreshAt(r, inv.merges[m].source) <==> ReturnsFresh(inv, inv.merges[m]))
  {
    hide ForeignKeys, ForestSound, DoReverse;
    var r := DoReverse(inv, m, now);
    var source, moved := inv.merges[m].source, inv.merges[m].moved;
    SourceHasNoLinks(inv, m);
    ReversedShape(inv, m, now);
    forall k: nat | k < |inv.links|
      ensures (r.links[k].listing == source <==> k in moved) && r.links[k].lastSeenAt == inv.links[k].lastSeenAt
    {
      MovedBack(inv, m, now, k);
    }
    if FreshAt(r, source) {
      var k: nat :| NewestLink(r, source, k);
      assert k in moved;
    }
    if ReturnsFresh(inv, inv.merges[m]) {
      var k :| k in moved && inv.links[k].lastSeenAt == inv.listings[source].lastSeenAt;
      assert NewestLink(r, source, k);
    }
  }

  lemma OtherFreshIff(inv: Inventory, m: nat, now: Time, i: nat)
    requires ForestSound(inv) && Fresh(inv) && ActiveMerge(inv.merges, m) && MergeRefers(inv.merges[m], inv)
    requires i < |inv.listings| && !IsMerged(inv, i)
    ensures
      var r := DoReverse(inv, m, now);
      |r.listings| == |inv.listings|
      && (FreshAt(r, i) <==> exists k: nat :: NewestLink(inv, i, k) && k !in inv.merges[m].moved)
  {
    var r := DoReverse(inv, m, now);
    assert IsMerged(inv, inv.merges[m].source) <==> HasActiveMerge(inv.merges, inv.merges[m].source);
    assert i != inv.merges[m].source && r.listings[i] == inv.listings[i];
    forall k: nat | k < |inv.links|
      ensures r.links[k].listing == i <==> inv.links[k].listing == i && k !in inv.merges[m].moved
    {
      MovedBack(inv, m, now, k);
    }
    assert FreshAt(inv, i);
    if FreshAt(r, i) {
      var k: nat :| NewestLink(r, i, k);
      assert NewestLink(inv, i, k);
    }
    if exists k: nat :: NewestLink(inv, i, k) && k !in inv.merges[m].moved {
      var k: nat :| NewestLink(inv, i, k) && k !in inv.merges[m].moved;
      assert NewestLink(r, i, k);
    }
  }

  lemma UnitsIff(inv: Inventory, m: nat, now: Time)
    requires ForestSound(inv) && OnePerUnit(inv.listings) && ActiveMerge(inv.merges, m)
    requires inv.merges[m].source < |inv.listings|
    ensures OnePerUnit(DoReverse(inv, m, now).listings) <==> UnitStillFree(inv, inv.merges[m].source)
  {
    var source := inv.merges[m].source;
    var before, after := inv.listings, DoReverse(inv, m, now).listings;
    assert forall i :: 0 <= i < |before| && i != source ==> after[i] == before[i];
    if OnePerUnit(after) && inv.listings[source].unit.Some? {
      forall i | 0 <= i < |before| && i != source && before[i].unit == before[source].unit
        ensures before[i].lifecycle == Lifecycle.Merged
      {
        var low, high := Min(i, source), Max(i, source);
        assert after[low].unit == after[high].unit;
      }
    }
  }

  /** In a sound state, reversing a merge keeps identity uniqueness and freshness exactly under these conditions. */
  lemma ReversalKeepsIdentityIff(inv: Inventory, m: nat, now: Time)
    requires ForeignKeys(inv) && ForestSound(inv) && IdentitySound(inv) && ActiveMerge(inv.merges, m)
    ensures MergeRefers(inv.merges[m], inv)
    ensures IdentitySound(DoReverse(inv, m, now)) <==>
      && UnitStillFree(inv, inv.merges[m].source)
      && ReturnsFresh(inv, inv.merges[m])
      && LeavesFresh(inv, inv.merges[m].moved)
  {
    assert MergeRefers(inv.merges[m], inv) by { MergesRefer(inv, m); }
    hide ForeignKeys, OnePerUnit, FreshAt, ReturnsFresh, UnitStillFree, NewestLink, ForestSound, PlacesUnique;
    var r := DoReverse(inv, m, now);
    UnitsIff(inv, m, now);
    SourceFreshIff(inv, m, now);
    LinksStayUnique(inv, m, now);
    var source := inv.merges[m].source;
    forall i: nat | i < |inv.listings|
      ensures IsMerged(r, i) <==> IsMerged(inv, i) && i != source
    {
    }
    forall i: nat | i < |inv.listings| && !IsMerged(inv, i)
      ensures FreshAt(r, i) <==> exists k: nat :: NewestLink(inv, i, k) && k !in inv.merges[m].moved
    {
      OtherFreshIff(inv, m, now, i);
    }
    assert !IsMerged(r, source);
    SourceWasMerged(inv, m);
    assert Fresh(r) <==> FreshAt(r, source) && LeavesFresh(inv, inv.merges[m].moved);
  }

  lemma MergesRefer(inv: Inventory, m: nat)
    requires ForeignKeys(inv) && m < |inv.merges|
    ensures MergeRefers(inv.merges[m], inv)
  {
  }

  lemma SourceWasMerged(inv: Inventory, m: nat)
    requires ForestSound(inv) && ActiveMerge(inv.merges, m) && inv.merges[m].source < |inv.listings|
    ensures IsMerged(inv, inv.merges[m].source)
  {
    assert HasActiveMerge(inv.merges, inv.merges[m].source);
  }

  lemma LinksStayUnique(inv: Inventory, m: nat, now: Time)
    requires m < |inv.merges| && inv.merges[m].source < |inv.listings|
    ensures LinksUnique(DoReverse(inv, m, now).links) <==> LinksUnique(inv.links)
    ensures DoReverse(inv, m, now).places == inv.places
  {
    var r := DoReverse(inv, m, now);
    assert forall k :: 0 <= k < |inv.links| ==>
             r.links[k].nativeId == inv.links[k].nativeId && r.links[k].source == inv.links[k].source;
  }
}
