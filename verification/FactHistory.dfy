/** Evidence and its current resolution: the recorder, and what every sequence of recordings keeps. */
module FactHistory {
  import opened Prelude
  import opened Schema

  // ---------------------------------------------------------------- the recorder's queries and writes

  /** An ACTIVE override of this field of this entity. */
  predicate Governs(o: Override, entity: nat, field: OverrideField) {
    o.entity == entity && o.field == field && o.status == OverrideStatus.Active
  }

  predicate Overridden(overrides: seq<Override>, entity: nat, field: OverrideField) {
    exists o :: 0 <= o < |overrides| && Governs(overrides[o], entity, field)
  }

  function ActiveOverride(overrides: seq<Override>, entity: nat, field: OverrideField): (o: Option<Override>)
    ensures o.Some? <==> Overridden(overrides, entity, field)
    ensures o.Some? ==> Governs(o.value, entity, field) && o.value in overrides
  {
    var ids := Where(overrides, (o: Override) => Governs(o, entity, field));
    if ids == [] then None else Some(overrides[ids[0]])
  }

  predicate Current(r: Resolution, entity: nat, key: FactKey) {
    r.entity == entity && r.key == key && r.supersededAt == None
  }

  function Supersede(resolutions: seq<Resolution>, entity: nat, key: FactKey, now: Time): seq<Resolution> {
    seq(|resolutions|, i requires 0 <= i < |resolutions| =>
      if Current(resolutions[i], entity, key) then resolutions[i].(supersededAt := Some(now)) else resolutions[i])
  }

  function StatusFor(status: ValueStatus): ResolutionStatus {
    if status == ValueStatus.Asserted then ResolutionStatus.Resolved else ResolutionStatus.Unknown
  }

  function Record(f: Facts, assertion: Assertion, now: Time): Facts {
    var evidence := f.(assertions := f.assertions + [assertion]);
    if Overridden(f.overrides, assertion.entity, FactField(assertion.key)) then
      evidence
    else
      evidence.(resolutions := Supersede(f.resolutions, assertion.entity, assertion.key, now)
        + [Resolution(assertion.entity, assertion.key, |f.assertions|, StatusFor(assertion.valueStatus), None)])
  }

  predicate OpenConflict(issue: Issue, entity: nat, key: FactKey) {
    issue.entity == entity && issue.status == IssueStatus.Open && issue.kind.Conflict? && issue.kind.key == key
  }

  predicate Surfaced(issues: seq<Issue>, entity: nat, key: FactKey) {
    exists i :: 0 <= i < |issues| && OpenConflict(issues[i], entity, key)
  }

  function RaiseConflict(f: Facts, override: Override, entity: nat, key: FactKey, incoming: FactValue): Facts {
    if !override.reviewOnConflict || Surfaced(f.issues, entity, key) then f
    else f.(issues := f.issues + [Issue(entity, Conflict(key, incoming), IssueStatus.Open)])
  }

  class FactRecorder {
    const db: Database

    constructor (db: Database)
      ensures this.db == db
    {
      this.db := db;
    }

    method RecordFact(entity: nat, key: FactKey, value: FactValue, status: ValueStatus, observation: nat, now: Time)
      modifies db`assertions, db`resolutions
      ensures db.FactTables() == Record(old(db.FactTables()), Assertion(entity, key, value, status, observation), now)
    {
      var assertionId := |db.assertions|;
      db.assertions := db.assertions + [Assertion(entity, key, value, status, observation)];
      var override := ActiveOverride(db.overrides, entity, FactField(key));
      if override.Some? {
        return;
      }
      db.resolutions := Supersede(db.resolutions, entity, key, now);
      db.resolutions := db.resolutions + [Resolution(entity, key, assertionId, StatusFor(status), None)];
    }

    method RaiseConflictWithOverride(override: Override, entity: nat, key: FactKey, incoming: FactValue)
      modifies db`issues
      ensures db.FactTables() == RaiseConflict(old(db.FactTables()), override, entity, key, incoming)
    {
      if !override.reviewOnConflict {
        return;
      }
      for i := 0 to |db.issues|
        invariant !exists k :: 0 <= k < i && OpenConflict(db.issues[k], entity, key)
        invariant db.issues == old(db.issues)
      {
        if OpenConflict(db.issues[i], entity, key) {
          return;
        }
      }
      db.issues := db.issues + [Issue(entity, Conflict(key, incoming), IssueStatus.Open)];
    }
  }

  // ---------------------------------------------------------------- what every recording keeps

  ghost predicate SingleCurrent(f: Facts) {
    forall a, b, entity, key :: 0 <= a < b < |f.resolutions| && Current(f.resolutions[a], entity, key) ==>
      !Current(f.resolutions[b], entity, key)
  }

  predicate About(assertion: Assertion, entity: nat, key: FactKey) {
    assertion.entity == entity && assertion.key == key
  }

  /** Assertion `a` is the newest about its fact. */
  ghost predicate IsNewest(f: Facts, a: nat) {
    && a < |f.assertions|
    && (forall b :: a < b < |f.assertions| ==> !About(f.assertions[b], f.assertions[a].entity, f.assertions[a].key))
  }

  /** Never overridden: no override row at all, revoked ones included. */
  ghost predicate NeverOverridden(f: Facts, entity: nat, key: FactKey) {
    forall o :: 0 <= o < |f.overrides| ==> !(f.overrides[o].entity == entity && f.overrides[o].field == FactField(key))
  }

  /** Assertion `a` is what the current resolution of its fact cites. */
  ghost predicate Effective(f: Facts, a: nat)
    requires a < |f.assertions|
  {
    exists r :: 0 <= r < |f.resolutions| && f.resolutions[r].assertion == a &&
      Current(f.resolutions[r], f.assertions[a].entity, f.assertions[a].key)
  }

  /** Once anything is known about a never-overridden fact, its current resolution exists and is the newest evidence. */
  ghost predicate FollowsEvidence(f: Facts) {
    forall a: nat :: IsNewest(f, a) && NeverOverridden(f, f.assertions[a].entity, f.assertions[a].key) ==>
      Effective(f, a)
  }

  /** A resolution always cites evidence about its own fact. */
  ghost predicate CitesOwnFact(f: Facts) {
    forall r :: 0 <= r < |f.resolutions| ==>
      && f.resolutions[r].assertion < |f.assertions|
      && About(f.assertions[f.resolutions[r].assertion], f.resolutions[r].entity, f.resolutions[r].key)
  }

  ghost predicate OneOpenConflict(f: Facts) {
    forall a, b, entity, key :: 0 <= a < b < |f.issues| && OpenConflict(f.issues[a], entity, key) ==>
      !OpenConflict(f.issues[b], entity, key)
  }

  /** The partial unique index on active overrides. */
  ghost predicate OneActiveOverride(f: Facts) {
    forall a, b, entity, field :: 0 <= a < b < |f.overrides| && Governs(f.overrides[a], entity, field) ==>
      !Governs(f.overrides[b], entity, field)
  }

  ghost predicate FactsSound(f: Facts) {
    SingleCurrent(f) && FollowsEvidence(f) && CitesOwnFact(f) && OneOpenConflict(f) && OneActiveOverride(f)
  }

  /** Nothing is deleted: assertions are a prefix, and a resolution changes at most by being superseded. */
  ghost predicate Retains(f: Facts, g: Facts) {
    && f.assertions <= g.assertions
    && |f.resolutions| <= |g.resolutions|
    && (forall r :: 0 <= r < |f.resolutions| ==>
          g.resolutions[r].(supersededAt := None) == f.resolutions[r].(supersededAt := None)
          && (f.resolutions[r].supersededAt.Some? ==> g.resolutions[r] == f.resolutions[r]))
  }

  lemma RecordFollowsEvidence(f: Facts, assertion: Assertion, now: Time)
    requires FollowsEvidence(f)
    ensures FollowsEvidence(Record(f, assertion, now))
  {
    var g := Record(f, assertion, now);
    var n := |f.assertions|;
    forall a: nat | IsNewest(g, a) && NeverOverridden(g, g.assertions[a].entity, g.assertions[a].key)
      ensures Effective(g, a)
    {
      assert NeverOverridden(f, g.assertions[a].entity, g.assertions[a].key);
      if a == n {
        assert Current(g.resolutions[|f.resolutions|], assertion.entity, assertion.key);
      } else {
        assert g.assertions[a] == f.assertions[a];
        assert IsNewest(f, a) by {
          assert forall b :: a < b < n ==> g.assertions[b] == f.assertions[b];
        }
        assert !About(g.assertions[n], g.assertions[a].entity, g.assertions[a].key);
        var r :| 0 <= r < |f.resolutions| && f.resolutions[r].assertion == a &&
          Current(f.resolutions[r], f.assertions[a].entity, f.assertions[a].key);
        assert g.resolutions[r] == f.resolutions[r];
      }
    }
  }

  lemma RecordKeeps(f: Facts, assertion: Assertion, now: Time)
    requires FactsSound(f)
    ensures FactsSound(Record(f, assertion, now))
    ensures Retains(f, Record(f, assertion, now))
    ensures Record(f, assertion, now).assertions == f.assertions + [assertion]
  {
    RecordFollowsEvidence(f, assertion, now);
  }

  lemma RaiseConflictKeeps(f: Facts, override: Override, entity: nat, key: FactKey, incoming: FactValue)
    requires FactsSound(f)
    ensures FactsSound(RaiseConflict(f, override, entity, key, incoming))
    ensures override.reviewOnConflict ==>
              Surfaced(RaiseConflict(f, override, entity, key, incoming).issues, entity, key)
  {
    var g := RaiseConflict(f, override, entity, key, incoming);
    if override.reviewOnConflict && !Surfaced(f.issues, entity, key) {
      assert OpenConflict(g.issues[|f.issues|], entity, key);
    }
    forall a: nat | IsNewest(g, a) && NeverOverridden(g, g.assertions[a].entity, g.assertions[a].key)
      ensures Effective(g, a)
    {
      assert IsNewest(f, a) && Effective(f, a);
    }
  }

  /** While an override is active, evidence about its fact leaves every resolution of that fact untouched. */
  lemma OverrideFreezesResolutions(f: Facts, assertion: Assertion, now: Time, entity: nat, key: FactKey, r: nat)
    requires Overridden(f.overrides, entity, FactField(key))
    requires r < |f.resolutions| && f.resolutions[r].entity == entity && f.resolutions[r].key == key
    ensures Record(f, assertion, now).resolutions[r] == f.resolutions[r]
  {
  }

  // ---------------------------------------------------------------- any sequence of recordings

  function RecordAll(f: Facts, assertions: seq<Assertion>, now: Time): Facts
    decreases |assertions|
  {
    if assertions == [] then f else RecordAll(Record(f, assertions[0], now), assertions[1..], now)
  }

  /** One current resolution per fact, full history kept, after any sequence of `record` calls. */
  lemma {:induction false} RecordAllKeeps(f: Facts, assertions: seq<Assertion>, now: Time)
    requires FactsSound(f)
    ensures FactsSound(RecordAll(f, assertions, now))
    ensures Retains(f, RecordAll(f, assertions, now))
    ensures RecordAll(f, assertions, now).assertions == f.assertions + assertions
    ensures RecordAll(f, assertions, now).overrides == f.overrides
    ensures RecordAll(f, assertions, now).issues == f.issues
    decreases |assertions|
  {
    hide FactsSound, Supersede, Overridden;
    if assertions == [] {
      assert f.assertions + assertions == f.assertions;
    } else {
      RecordKeeps(f, assertions[0], now);
      RecordAllKeeps(Record(f, assertions[0], now), assertions[1..], now);
      assert f.assertions + [assertions[0]] + assertions[1..] == f.assertions + assertions;
    }
  }

  /** The override's resolution outlives any amount of contrary evidence. */
  lemma {:induction false} OverrideOutranksEvidence(
      f: Facts, assertions: seq<Assertion>, now: Time, entity: nat, key: FactKey, r: nat)
    requires FactsSound(f) && Overridden(f.overrides, entity, FactField(key))
    requires r < |f.resolutions| && f.resolutions[r].entity == entity && f.resolutions[r].key == key
    ensures r < |RecordAll(f, assertions, now).resolutions|
    ensures RecordAll(f, assertions, now).resolutions[r] == f.resolutions[r]
    decreases |assertions|
  {
    if assertions != [] {
      OverrideFreezesResolutions(f, assertions[0], now, entity, key, r);
      RecordKeeps(f, assertions[0], now);
      OverrideOutranksEvidence(Record(f, assertions[0], now), assertions[1..], now, entity, key, r);
    }
  }
}
