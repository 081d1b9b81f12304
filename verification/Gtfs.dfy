/** Ingest of a GTFS dataset: insert what is new, then link parent stations in a second pass. */
module Gtfs {
  import opened Prelude

  datatype Mode = Subway | Rail | Bus | Ferry | Path | Other

  /** What the file says of a stop or a route besides its ids. */
  datatype Stop = Stop(
    id: string, parent: Option<string>, operator: string, name: string, mode: Mode, longitude: real, latitude: real)

  datatype Route = Route(id: string, operator: string, shortName: Option<string>, longName: Option<string>, mode: Mode)

  datatype Dataset = Dataset(version: string, stops: seq<Stop>, routes: seq<Route>)

  /** The unique constraint of both tables; it stands for the row's random primary key. */
  datatype Key = Key(provider: nat, id: string, version: string)

  datatype StopRow = StopRow(
    operator: string, name: string, mode: Mode, longitude: real, latitude: real, parent: Option<Key>)

  datatype RouteRow = RouteRow(operator: string, shortName: Option<string>, longName: Option<string>, mode: Mode)

  type Stops = map<Key, StopRow>
  type Routes = map<Key, RouteRow>

  datatype Counts = Counts(stopsInserted: nat, routesInserted: nat, parentsLinked: nat)

  /** Under which provider and dataset version the rows are stored. */
  datatype Scope = Scope(provider: nat, version: string)

  function KeyOf(scope: Scope, id: string): Key {
    Key(scope.provider, id, scope.version)
  }

  function NewStop(stop: Stop): StopRow {
    StopRow(stop.operator, stop.name, stop.mode, stop.longitude, stop.latitude, None)
  }

  function NewRoute(route: Route): RouteRow {
    RouteRow(route.operator, route.shortName, route.longName, route.mode)
  }

  function StopId(stop: Stop): string {
    stop.id
  }

  function RouteId(route: Route): string {
    route.id
  }

  // ---------------------------------------------------------------- first pass

  /** INSERT ... ON CONFLICT DO NOTHING of each line, counting the rows inserted; used for stops and for routes. */
  function InsertAll<T, R>(
      table: map<Key, R>, scope: Scope, lines: seq<T>, id: T -> string, make: T -> R): (map<Key, R>, nat) {
    if lines == [] then
      (table, 0)
    else
      var (before, inserted) := InsertAll(table, scope, lines[..|lines| - 1], id, make);
      var line := lines[|lines| - 1];
      var key := KeyOf(scope, id(line));
      if key in before then (before, inserted) else (before[key := make(line)], inserted + 1)
  }

  function InsertStops(table: Stops, scope: Scope, stops: seq<Stop>): (Stops, nat) {
    InsertAll(table, scope, stops, StopId, NewStop)
  }

  function InsertRoutes(table: Routes, scope: Scope, routes: seq<Route>): (Routes, nat) {
    InsertAll(table, scope, routes, RouteId, NewRoute)
  }

  // ---------------------------------------------------------------- second pass

  predicate NamesParent(stop: Stop) {
    stop.parent.Some? && stop.parent.value != ""
  }

  /** Both ends are stored and the child has no parent yet. */
  predicate Links(table: Stops, scope: Scope, stop: Stop) {
    && NamesParent(stop)
    && KeyOf(scope, stop.id) in table && KeyOf(scope, stop.parent.value) in table
    && table[KeyOf(scope, stop.id)].parent.None?
  }

  function LinkParent(table: Stops, scope: Scope, stop: Stop): Stops {
    if Links(table, scope, stop) then
      var child := KeyOf(scope, stop.id);
      table[child := table[child].(parent := Some(KeyOf(scope, stop.parent.value)))]
    else
      table
  }

  function LinkParents(table: Stops, scope: Scope, stops: seq<Stop>): (Stops, nat) {
    if stops == [] then
      (table, 0)
    else
      var (before, linked) := LinkParents(table, scope, stops[..|stops| - 1]);
      var stop := stops[|stops| - 1];
      (LinkParent(before, scope, stop), if Links(before, scope, stop) then linked + 1 else linked)
  }

  datatype Result = Result(stops: Stops, routes: Routes, counts: Counts)

  function Ingested(stops: Stops, routes: Routes, dataset: Dataset, provider: nat): Result {
    var scope := Scope(provider, dataset.version);
    var (allRoutes, routesInserted) := InsertRoutes(routes, scope, dataset.routes);
    var (allStops, stopsInserted) := InsertStops(stops, scope, dataset.stops);
    var (linkedStops, linked) := LinkParents(allStops, scope, dataset.stops);
    Result(linkedStops, allRoutes, Counts(stopsInserted, routesInserted, linked))
  }

  class TransitStore {
    var stops: Stops
    var routes: Routes

    constructor ()
      ensures stops == map[] && routes == map[]
    {
      stops, routes := map[], map[];
    }

    method AddRoutes(scope: Scope, added: seq<Route>) returns (inserted: nat)
      modifies this`routes
      ensures (routes, inserted) == InsertRoutes(old(routes), scope, added)
    {
      inserted := 0;
      for n := 0 to |added|
        invariant (routes, inserted) == InsertRoutes(old(routes), scope, added[..n])
      {
        var route := added[n];
        assert added[..n + 1][..n] == added[..n];
        if KeyOf(scope, route.id) !in routes {
          routes := routes[KeyOf(scope, route.id) := NewRoute(route)];
          inserted := inserted + 1;
        }
      }
      assert added[..|added|] == added;
    }

    method AddStops(scope: Scope, added: seq<Stop>) returns (inserted: nat)
      modifies this`stops
      ensures (stops, inserted) == InsertStops(old(stops), scope, added)
    {
      inserted := 0;
      for n := 0 to |added|
        invariant (stops, inserted) == InsertStops(old(stops), scope, added[..n])
      {
        var stop := added[n];
        assert added[..n + 1][..n] == added[..n];
        if KeyOf(scope, stop.id) !in stops {
          stops := stops[KeyOf(scope, stop.id) := NewStop(stop)];
          inserted := inserted + 1;
        }
      }
      assert added[..|added|] == added;
    }

    method LinkParentStations(scope: Scope, declared: seq<Stop>) returns (linked: nat)
      modifies this`stops
      ensures (stops, linked) == LinkParents(old(stops), scope, declared)
    {
      hide LinkParent, Links;
      var idByProvider := map key | key in stops && key == KeyOf(scope, key.id) :: key.id := key;
      assert forall id: string :: id in idByProvider <==> KeyOf(scope, id) in stops;
      linked := 0;
      for n := 0 to |declared|
        invariant stops.Keys == old(stops).Keys
        invariant (stops, linked) == LinkParents(old(stops), scope, declared[..n])
      {
        assert declared[..n + 1][..n] == declared[..n];
        var wasLinked := LinkOne(scope, declared[n], idByProvider);
        linked := if wasLinked then linked + 1 else linked;
      }
      assert declared[..|declared|] == declared;
    }

    method LinkOne(scope: Scope, stop: Stop, idByProvider: map<string, Key>) returns (linked: bool)
      requires forall id: string :: id in idByProvider <==> KeyOf(scope, id) in stops
      requires forall id: string :: id in idByProvider ==> idByProvider[id] == KeyOf(scope, id)
      modifies this`stops
      ensures stops == LinkParent(old(stops), scope, stop) && stops.Keys == old(stops).Keys
      ensures linked == Links(old(stops), scope, stop)
    {
      if stop.parent.None? || stop.parent.value == "" {
        return false;
      }
      if stop.id !in idByProvider || stop.parent.value !in idByProvider {
        return false;
      }
      var child, parent := idByProvider[stop.id], idByProvider[stop.parent.value];
      linked := stops[child].parent.None?;
      if linked {
        stops := stops[child := stops[child].(parent := Some(parent))];
      }
    }

    method IngestDataset(dataset: Dataset, provider: nat) returns (counts: Counts)
      modifies this
      ensures Result(stops, routes, counts) == Ingested(old(stops), old(routes), dataset, provider)
    {
      var scope := Scope(provider, dataset.version);
      var routesInserted := AddRoutes(scope, dataset.routes);
      var stopsInserted := AddStops(scope, dataset.stops);
      var linked := LinkParentStations(scope, dataset.stops);
      counts := Counts(stopsInserted, routesInserted, linked);
    }
  }

  // ---------------------------------------------------------------- what is stored

  predicate DistinctIds<T>(lines: seq<T>, id: T -> string) {
    forall a, b :: 0 <= a < b < |lines| ==> id(lines[a]) != id(lines[b])
  }

  predicate HasLine<T>(lines: seq<T>, id: T -> string, scope: Scope, key: Key) {
    exists n :: 0 <= n < |lines| && KeyOf(scope, id(lines[n])) == key
  }

  /** Whatever the file: stored rows stay as they are, and a key is stored exactly when it was or the file has it. */
  lemma {:induction false} InsertAllStores<T, R>(
      table: map<Key, R>, scope: Scope, lines: seq<T>, id: T -> string, make: T -> R)
    ensures
      var after := InsertAll(table, scope, lines, id, make).0;
      && (forall key :: key in table ==> key in after && after[key] == table[key])
      && (forall key :: key in after <==> key in table || HasLine(lines, id, scope, key))
  {
    if lines != [] {
      var front := lines[..|lines| - 1];
      InsertAllStores(table, scope, front, id, make);
      var after := InsertAll(table, scope, lines, id, make).0;
      forall key ensures HasLine(lines, id, scope, key) <==>
          HasLine(front, id, scope, key) || key == KeyOf(scope, id(lines[|lines| - 1]))
      {
        assert forall n :: 0 <= n < |front| ==> front[n] == lines[n];
      }
    }
  }

  /** With distinct ids every new line is stored with its own facts, and the count is the number of new ids. */
  lemma {:induction false} InsertAllExactly<T, R>(
      table: map<Key, R>, scope: Scope, lines: seq<T>, id: T -> string, make: T -> R)
    requires DistinctIds(lines, id)
    ensures
      var (after, inserted) := InsertAll(table, scope, lines, id, make);
      && (forall n :: 0 <= n < |lines| && KeyOf(scope, id(lines[n])) !in table ==>
            KeyOf(scope, id(lines[n])) in after && after[KeyOf(scope, id(lines[n]))] == make(lines[n]))
      && inserted == CountIf(lines, (line: T) => KeyOf(scope, id(line)) !in table)
  {
    if lines != [] {
      var front := lines[..|lines| - 1];
      InsertAllExactly(table, scope, front, id, make);
      InsertAllStores(table, scope, front, id, make);
    }
  }

  /** Linking never adds, drops or rewrites a row, except for giving one without a parent its parent. */
  lemma {:induction false} LinkParentsOnly(table: Stops, scope: Scope, stops: seq<Stop>)
    ensures
      var after := LinkParents(table, scope, stops).0;
      && after.Keys == table.Keys
      && (forall key :: key in table ==> after[key] == table[key].(parent := after[key].parent))
      && (forall key :: key in table && table[key].parent.Some? ==> after[key] == table[key])
      && (forall key :: key in table && after[key] != table[key] ==>
            exists n :: 0 <= n < |stops| && KeyOf(scope, stops[n].id) == key)
  {
    if stops != [] {
      LinkParentsOnly(table, scope, stops[..|stops| - 1]);
    }
  }

  /** With distinct ids each stop is linked by its own line alone. */
  lemma {:induction false} LinkParentsExactly(table: Stops, scope: Scope, stops: seq<Stop>)
    requires DistinctIds(stops, StopId)
    ensures
      var (after, linked) := LinkParents(table, scope, stops);
      && after.Keys == table.Keys
      && (forall n :: 0 <= n < |stops| && KeyOf(scope, stops[n].id) in table ==>
            after[KeyOf(scope, stops[n].id)] == LinkParent(table, scope, stops[n])[KeyOf(scope, stops[n].id)])
      && linked == CountIf(stops, (s: Stop) => Links(table, scope, s))
  {
    LinkParentsOnly(table, scope, stops);
    if stops != [] {
      LinkParentsExactly(table, scope, stops[..|stops| - 1]);
      LinkParentsOnly(table, scope, stops[..|stops| - 1]);
    }
  }

  // ---------------------------------------------------------------- file order never matters

  lemma SameLine<T>(a: seq<T>, b: seq<T>, n: nat) returns (m: nat)
    requires multiset(a) == multiset(b) && n < |a|
    ensures m < |b| && b[m] == a[n]
  {
    assert a[n] in multiset(b);
    m :| m < |b| && b[m] == a[n];
  }

  function Without<T>(s: seq<T>, i: nat): seq<T>
    requires i < |s|
  {
    s[..i] + s[i + 1..]
  }

  lemma RemovalCounts<T>(s: seq<T>, i: nat, p: T -> bool)
    requires i < |s|
    ensures CountIf(s, p) == CountIf(Without(s, i), p) + if p(s[i]) then 1 else 0
  {
    hide CountIf;
    CountIfSplit(s, i, p);
    CountIfHead(s[i..], p);
    assert s[i..][0] == s[i] && s[i..][1..] == s[i + 1..];
    CountIfAppend(s[..i], s[i + 1..], p);
  }

  lemma CountIfSplit<T>(s: seq<T>, i: nat, p: T -> bool)
    requires i <= |s|
    ensures CountIf(s, p) == CountIf(s[..i], p) + CountIf(s[i..], p)
  {
    hide CountIf;
    assert s == s[..i] + s[i..];
    CountIfAppend(s[..i], s[i..], p);
  }

  lemma CountIfHead<T>(s: seq<T>, p: T -> bool)
    requires s != []
    ensures CountIf(s, p) == (if p(s[0]) then 1 else 0) + CountIf(s[1..], p)
  {
    hide CountIf;
    CountIfSplit(s, 1, p);
    assert s[..1] == [s[0]];
    CountIfOne(s[0], p);
  }

  lemma CountIfOne<T>(x: T, p: T -> bool)
    ensures CountIf([x], p) == if p(x) then 1 else 0
  {
    assert [x][..0] == [];
  }

  lemma RemovalMultiset<T>(s: seq<T>, i: nat)
    requires i < |s|
    ensures |Without(s, i)| == |s| - 1
    ensures multiset(Without(s, i)) == multiset(s) - multiset{s[i]}
  {
    assert s == s[..i] + [s[i]] + s[i + 1..];
  }

  lemma {:induction false} CountIfPermuted<T>(a: seq<T>, b: seq<T>, p: T -> bool)
    requires multiset(a) == multiset(b)
    ensures CountIf(a, p) == CountIf(b, p)
    decreases |a|
  {
    hide CountIf, Without;
    assert |a| == |multiset(a)| == |multiset(b)| == |b|;
    if a == [] {
      assert b == [];
    } else {
      var i := SameLine(a, b, 0);
      RemovalCounts(a, 0, p);
      RemovalCounts(b, i, p);
      RemovalMultiset(a, 0);
      RemovalMultiset(b, i);
      CountIfPermuted(Without(a, 0), Without(b, i), p);
    }
  }

  lemma Multiplicity<T>(s: seq<T>, i: nat, j: nat)
    requires i < j < |s| && s[i] == s[j]
    ensures multiset(s)[s[i]] >= 2
  {
    assert s == s[..j] + [s[j]] + s[j + 1..];
    assert s[..j][i] == s[i];
  }

  lemma OnlyOnce<T>(s: seq<T>, i: nat)
    requires i < |s| && forall j :: 0 <= j < |s| && j != i ==> s[j] != s[i]
    ensures multiset(s)[s[i]] == 1
  {
    assert s == s[..i] + [s[i]] + s[i + 1..];
  }

  lemma DistinctPermuted<T>(a: seq<T>, b: seq<T>, id: T -> string)
    requires multiset(a) == multiset(b) && DistinctIds(a, id)
    ensures DistinctIds(b, id)
  {
    forall i: nat, j: nat | i < j < |b| ensures id(b[i]) != id(b[j]) {
      assert b[i] in multiset(a) && b[j] in multiset(a);
      var p: nat :| p < |a| && a[p] == b[i];
      var q: nat :| q < |a| && a[q] == b[j];
      OnlyOnce(a, p);
      if b[i] == b[j] {
        Multiplicity(b, i, j);
      }
    }
  }

  lemma InsertAllContained<T, R>(
      table: map<Key, R>, scope: Scope, a: seq<T>, b: seq<T>, id: T -> string, make: T -> R)
    requires multiset(a) == multiset(b) && DistinctIds(a, id) && DistinctIds(b, id)
    ensures
      var x, y := InsertAll(table, scope, a, id, make).0, InsertAll(table, scope, b, id, make).0;
      forall key :: key in x ==> key in y && x[key] == y[key]
  {
    InsertAllStores(table, scope, a, id, make);
    InsertAllStores(table, scope, b, id, make);
    InsertAllExactly(table, scope, a, id, make);
    InsertAllExactly(table, scope, b, id, make);
    var x, y := InsertAll(table, scope, a, id, make).0, InsertAll(table, scope, b, id, make).0;
    hide InsertAll, CountIf;
    forall key | key in x ensures key in y && x[key] == y[key] {
      if key !in table {
        var n: nat :| n < |a| && KeyOf(scope, id(a[n])) == key;
        var m := SameLine(a, b, n);
      }
    }
  }

  lemma InsertAllPermuted<T, R>(
      table: map<Key, R>, scope: Scope, a: seq<T>, b: seq<T>, id: T -> string, make: T -> R)
    requires multiset(a) == multiset(b) && DistinctIds(a, id)
    ensures InsertAll(table, scope, a, id, make) == InsertAll(table, scope, b, id, make)
  {
    DistinctPermuted(a, b, id);
    InsertAllContained(table, scope, a, b, id, make);
    InsertAllContained(table, scope, b, a, id, make);
    InsertAllExactly(table, scope, a, id, make);
    InsertAllExactly(table, scope, b, id, make);
    CountIfPermuted(a, b, (line: T) => KeyOf(scope, id(line)) !in table);
    hide InsertAll, CountIf;
    assert InsertAll(table, scope, a, id, make).0 == InsertAll(table, scope, b, id, make).0;
  }

  lemma LinkParentsAgree(table: Stops, scope: Scope, a: seq<Stop>, b: seq<Stop>, key: Key)
    requires multiset(a) == multiset(b) && DistinctIds(a, StopId) && DistinctIds(b, StopId)
    requires key in table
    ensures LinkParents(table, scope, a).0.Keys == LinkParents(table, scope, b).0.Keys == table.Keys
    ensures LinkParents(table, scope, a).0[key] != table[key] ==>
              LinkParents(table, scope, a).0[key] == LinkParents(table, scope, b).0[key]
  {
    LinkParentsExactly(table, scope, a);
    LinkParentsExactly(table, scope, b);
    LinkParentsOnly(table, scope, a);
    var x := LinkParents(table, scope, a).0;
    hide LinkParents, CountIf, LinkParent;
    if x[key] != table[key] {
      var n: nat :| n < |a| && KeyOf(scope, a[n].id) == key;
      var m := SameLine(a, b, n);
    }
  }

  lemma LinkParentsPermuted(table: Stops, scope: Scope, a: seq<Stop>, b: seq<Stop>)
    requires multiset(a) == multiset(b) && DistinctIds(a, StopId)
    ensures LinkParents(table, scope, a) == LinkParents(table, scope, b)
  {
    DistinctPermuted(a, b, StopId);
    LinkParentsExactly(table, scope, a);
    LinkParentsExactly(table, scope, b);
    CountIfPermuted(a, b, (s: Stop) => Links(table, scope, s));
    var x, y := LinkParents(table, scope, a).0, LinkParents(table, scope, b).0;
    hide LinkParents, CountIf, LinkParent, Links;
    forall key | key in table ensures x[key] == y[key] {
      LinkParentsAgree(table, scope, a, b, key);
      LinkParentsAgree(table, scope, b, a, key);
    }
    assert x == y;
  }

  /** With distinct ids, every permutation of a file stores the same rows and parents and reports the same counts. */
  lemma FileOrderNeverMatters(stops: Stops, routes: Routes, a: Dataset, b: Dataset, provider: nat)
    requires a.version == b.version && multiset(a.stops) == multiset(b.stops)
    requires multiset(a.routes) == multiset(b.routes)
    requires DistinctIds(a.stops, StopId) && DistinctIds(a.routes, RouteId)
    ensures Ingested(stops, routes, a, provider) == Ingested(stops, routes, b, provider)
  {
    hide InsertAll, LinkParents;
    var scope := Scope(provider, a.version);
    InsertAllPermuted(routes, scope, a.routes, b.routes, RouteId, NewRoute);
    InsertAllPermuted(stops, scope, a.stops, b.stops, StopId, NewStop);
    LinkParentsPermuted(InsertStops(stops, scope, a.stops).0, scope, a.stops, b.stops);
  }

  /** With a repeated id the first line wins, so order matters. */
  lemma RepeatedIdsDependOnOrder(x: Stop, y: Stop, provider: nat, version: string)
    requires x.id == y.id && x.name != y.name
    ensures multiset([x, y]) == multiset([y, x])
    ensures
      var scope := Scope(provider, version);
      InsertStops(map[], scope, [x, y]).0 != InsertStops(map[], scope, [y, x]).0
  {
    FirstLineWins(x, y, Scope(provider, version));
    FirstLineWins(y, x, Scope(provider, version));
    var key := KeyOf(Scope(provider, version), x.id);
    assert map[key := NewStop(x)][key] != map[key := NewStop(y)][key];
  }

  lemma FirstLineWins(x: Stop, y: Stop, scope: Scope)
    requires x.id == y.id
    ensures InsertStops(map[], scope, [x, y]).0 == map[KeyOf(scope, x.id) := NewStop(x)]
  {
    var none: Stops := map[];
    assert [x, y][..1] == [x] && [x][..0] == [];
    assert InsertAll(none, scope, [], StopId, NewStop) == (none, 0);
    assert InsertAll(none, scope, [x], StopId, NewStop) == (none[KeyOf(scope, x.id) := NewStop(x)], 1);
  }

  // ---------------------------------------------------------------- a second ingest adds nothing

  lemma {:induction false} InsertAllAgain<T, R>(
      table: map<Key, R>, scope: Scope, lines: seq<T>, id: T -> string, make: T -> R)
    requires forall n :: 0 <= n < |lines| ==> KeyOf(scope, id(lines[n])) in table
    ensures InsertAll(table, scope, lines, id, make) == (table, 0)
  {
    if lines != [] {
      InsertAllAgain(table, scope, lines[..|lines| - 1], id, make);
    }
  }

  /** After the second pass no line of the file has a link left to make. */
  lemma {:induction false} NothingLeftToLink(table: Stops, scope: Scope, stops: seq<Stop>)
    ensures forall n :: 0 <= n < |stops| ==> !Links(LinkParents(table, scope, stops).0, scope, stops[n])
  {
    if stops != [] {
      var front := stops[..|stops| - 1];
      NothingLeftToLink(table, scope, front);
      LinkParentsOnly(table, scope, front);
      forall n | 0 <= n < |stops| ensures !Links(LinkParents(table, scope, stops).0, scope, stops[n]) {
        assert n < |front| ==> front[n] == stops[n];
      }
    }
  }

  lemma {:induction false} LinkParentsAgain(table: Stops, scope: Scope, stops: seq<Stop>)
    requires forall n :: 0 <= n < |stops| ==> !Links(table, scope, stops[n])
    ensures LinkParents(table, scope, stops) == (table, 0)
  {
    if stops != [] {
      LinkParentsAgain(table, scope, stops[..|stops| - 1]);
    }
  }

  /** Ingesting any file a second time, repeated ids or not, inserts nothing, links nothing and changes nothing. */
  lemma SecondIngestAddsNothing(stops: Stops, routes: Routes, dataset: Dataset, provider: nat)
    ensures
      var once := Ingested(stops, routes, dataset, provider);
      Ingested(once.stops, once.routes, dataset, provider) == Result(once.stops, once.routes, Counts(0, 0, 0))
  {
    hide InsertAll, LinkParents, Links;
    var scope := Scope(provider, dataset.version);
    var once := Ingested(stops, routes, dataset, provider);
    var inserted := InsertStops(stops, scope, dataset.stops).0;
    InsertAllStores(routes, scope, dataset.routes, RouteId, NewRoute);
    assert forall n :: 0 <= n < |dataset.routes| ==>
             HasLine(dataset.routes, RouteId, scope, KeyOf(scope, RouteId(dataset.routes[n])));
    InsertAllAgain(once.routes, scope, dataset.routes, RouteId, NewRoute);
    InsertAllStores(stops, scope, dataset.stops, StopId, NewStop);
    LinkParentsOnly(inserted, scope, dataset.stops);
    assert forall n :: 0 <= n < |dataset.stops| ==>
             HasLine(dataset.stops, StopId, scope, KeyOf(scope, StopId(dataset.stops[n])));
    InsertAllAgain(once.stops, scope, dataset.stops, StopId, NewStop);
    NothingLeftToLink(inserted, scope, dataset.stops);
    LinkParentsAgain(once.stops, scope, dataset.stops);
  }
}
