/** What an ingest writes, row by row: which line of the file a stop or route comes from, and which parent it gets. */
module TransitRows {
  import opened Prelude
  import opened Gtfs

  // ---------------------------------------------------------------- the first pass

  /** The row copies the first line of the file with this id. */
  ghost predicate CopiesFirst<T, R>(lines: seq<T>, id: T -> string, make: T -> R, name: string, row: R) {
    exists n: nat :: IsFirst(lines, id, name, n) && row == make(lines[n])
  }

  predicate IsFirst<T>(lines: seq<T>, id: T -> string, name: string, n: nat) {
    n < |lines| && id(lines[n]) == name && forall m :: 0 <= m < n ==> id(lines[m]) != name
  }

  predicate Names<T>(lines: seq<T>, id: T -> string, name: string) {
    exists n :: 0 <= n < |lines| && id(lines[n]) == name
  }

  lemma NamesGrow<T>(lines: seq<T>, id: T -> string, name: string)
    requires lines != []
    ensures Names(lines, id, name) <==> Names(lines[..|lines| - 1], id, name) || id(lines[|lines| - 1]) == name
  {
    var front := lines[..|lines| - 1];
    assert forall m :: 0 <= m < |front| ==> front[m] == lines[m];
  }

  lemma CopiesGrow<T, R>(lines: seq<T>, id: T -> string, make: T -> R, name: string, row: R)
    requires lines != []
    ensures CopiesFirst(lines[..|lines| - 1], id, make, name, row) ==> CopiesFirst(lines, id, make, name, row)
    ensures !Names(lines[..|lines| - 1], id, name) && id(lines[|lines| - 1]) == name ==>
              CopiesFirst(lines, id, make, name, make(lines[|lines| - 1]))
  {
    var front := lines[..|lines| - 1];
    assert forall m :: 0 <= m < |front| ==> front[m] == lines[m];
    if n: nat :| IsFirst(front, id, name, n) && row == make(front[n]) {
      assert IsFirst(lines, id, name, n);
    }
    if !Names(front, id, name) && id(lines[|front|]) == name {
      assert IsFirst(lines, id, name, |front|);
    }
  }

  /** A key is stored exactly when it was or the file names it; stored rows stay, new ones copy their first line. */
  lemma {:induction false} FirstPass<T, R>(
      table: map<Key, R>, scope: Scope, lines: seq<T>, id: T -> string, make: T -> R, key: Key)
    ensures
      var after := InsertAll(table, scope, lines, id, make).0;
      && (key in after <==>
            || key in table
            || (key.provider == scope.provider && key.version == scope.version && Names(lines, id, key.id)))
      && (key in table ==> after[key] == table[key])
      && (key in after && key !in table ==> CopiesFirst(lines, id, make, key.id, after[key]))
  {
    hide CopiesFirst, Names;
    if lines == [] {
      NothingNamed(id, key.id);
    } else {
      FirstPass(table, scope, lines[..|lines| - 1], id, make, key);
      NamesGrow(lines, id, key.id);
      var after := InsertAll(table, scope, lines, id, make).0;
      if key in after {
        CopiesGrow(lines, id, make, key.id, after[key]);
      }
    }
  }

  lemma NothingNamed<T>(id: T -> string, name: string)
    ensures !Names([], id, name)
  {
  }

  lemma {:induction false} FirstPassCounts<T, R>(
      table: map<Key, R>, scope: Scope, lines: seq<T>, id: T -> string, make: T -> R)
    ensures
      var (after, inserted) := InsertAll(table, scope, lines, id, make);
      |after.Keys| == |table.Keys| + inserted
  {
    if lines != [] {
      var front := lines[..|lines| - 1];
      FirstPassCounts(table, scope, front, id, make);
      var before := InsertAll(table, scope, front, id, make).0;
      var key := KeyOf(scope, id(lines[|lines| - 1]));
      assert InsertAll(table, scope, lines, id, make).0.Keys == before.Keys + {key};
    }
  }

  // ---------------------------------------------------------------- the second pass

  /** The line is of this stop and names a parent that is stored. */
  predicate NamesStored(line: Stop, table: Stops, child: Key) {
    line.id == child.id && line.parent.Some? && line.parent.value != ""
    && Key(child.provider, line.parent.value, child.version) in table
  }

  /** The parent of the first line that names a stored one; none when no line does. */
  function ParentNamed(stops: seq<Stop>, table: Stops, child: Key): Option<Key> {
    if stops == [] then None
    else if NamesStored(stops[0], table, child)
    then Some(Key(child.provider, stops[0].parent.value, child.version))
    else ParentNamed(stops[1..], table, child)
  }

  lemma {:induction false} ParentNamedSnoc(stops: seq<Stop>, line: Stop, table: Stops, child: Key)
    ensures ParentNamed(stops + [line], table, child) ==
      if ParentNamed(stops, table, child).Some? then ParentNamed(stops, table, child)
      else if NamesStored(line, table, child) then Some(Key(child.provider, line.parent.value, child.version)) else None
    decreases |stops|
  {
    hide NamesStored;
    if stops == [] {
      assert ([] + [line])[0] == line && ([] + [line])[1..] == [];
    } else {
      assert (stops + [line])[0] == stops[0] && (stops + [line])[1..] == stops[1..] + [line];
      ParentNamedSnoc(stops[1..], line, table, child);
    }
  }

  lemma {:induction false} ParentReadsKeys(stops: seq<Stop>, a: Stops, b: Stops, child: Key)
    requires a.Keys == b.Keys
    ensures ParentNamed(stops, a, child) == ParentNamed(stops, b, child)
    decreases |stops|
  {
    if stops != [] {
      ParentReadsKeys(stops[1..], a, b, child);
    }
  }

  /** A stored stop without a parent gets the parent named first; every other row stays. */
  lemma {:induction false} SecondPass(table: Stops, scope: Scope, stops: seq<Stop>, key: Key)
    requires key in table
    ensures
      var after := LinkParents(table, scope, stops).0;
      && after.Keys == table.Keys
      && after[key] == table[key].(parent :=
           if table[key].parent.Some? || key.provider != scope.provider || key.version != scope.version
           then table[key].parent else ParentNamed(stops, table, key))
  {
    hide ParentNamed;
    if stops == [] {
      NobodyNamed(table, key);
    } else {
      var front, last := stops[..|stops| - 1], stops[|stops| - 1];
      SecondPass(table, scope, front, key);
      LinkParentsOnly(table, scope, front);
      LinkParentsOnly(table, scope, stops);
      assert stops == front + [last];
      ParentNamedSnoc(front, last, table, key);
    }
  }

  lemma NobodyNamed(table: Stops, key: Key)
    ensures ParentNamed([], table, key) == None
  {
  }

  lemma {:induction false} SecondPassCounts(table: Stops, scope: Scope, stops: seq<Stop>)
    ensures
      var (after, linked) := LinkParents(table, scope, stops);
      && after.Keys == table.Keys
      && linked == |set key | key in table && after[key] != table[key]|
  {
    LinkParentsOnly(table, scope, stops);
    if stops == [] {
      assert (set key | key in table && table[key] != table[key]) == {};
    } else {
      var front, last := stops[..|stops| - 1], stops[|stops| - 1];
      SecondPassCounts(table, scope, front);
      LinkParentsOnly(table, scope, front);
      var before, after := LinkParents(table, scope, front).0, LinkParents(table, scope, stops).0;
      var child := KeyOf(scope, last.id);
      assert (set key | key in table && after[key] != table[key])
          == (set key | key in table && before[key] != table[key]) + if Links(before, scope, last) then {child} else {};
    }
  }

  // ---------------------------------------------------------------- the whole ingest

  /** A stored route stays; a new one copies the first line with its id; the count is that of the new rows. */
  lemma RouteColumns(stops: Stops, routes: Routes, dataset: Dataset, provider: nat, key: Key)
    ensures
      var r := Ingested(stops, routes, dataset, provider);
      && (key in r.routes <==>
            || key in routes
            || (key.provider == provider && key.version == dataset.version
                && exists n :: 0 <= n < |dataset.routes| && dataset.routes[n].id == key.id))
      && (key in routes ==> r.routes[key] == routes[key])
      && (key in r.routes && key !in routes ==>
            exists n: nat :: n < |dataset.routes| && dataset.routes[n].id == key.id
              && (forall m :: 0 <= m < n ==> dataset.routes[m].id != key.id)
              && r.routes[key] == RouteRow(dataset.routes[n].operator, dataset.routes[n].shortName,
                                           dataset.routes[n].longName, dataset.routes[n].mode))
      && |r.routes.Keys| == |routes.Keys| + r.counts.routesInserted
  {
    hide InsertAll, LinkParents;
    var scope := Scope(provider, dataset.version);
    FirstPass(routes, scope, dataset.routes, RouteId, NewRoute, key);
    FirstPassCounts(routes, scope, dataset.routes, RouteId, NewRoute);
    var r := Ingested(stops, routes, dataset, provider);
    if key in r.routes && key !in routes {
      var n: nat :| IsFirst(dataset.routes, RouteId, key.id, n) && r.routes[key] == NewRoute(dataset.routes[n]);
    }
  }

  /**
   * A stored stop stays but for a missing parent; a new one copies the first line with its id; a stop of this dataset
   * without a parent gets the parent named by the first of its lines that names a stored one.
   */
  lemma StopColumns(stops: Stops, routes: Routes, dataset: Dataset, provider: nat, key: Key)
    ensures
      var r := Ingested(stops, routes, dataset, provider);
      && (key in r.stops <==>
            || key in stops
            || (key.provider == provider && key.version == dataset.version
                && exists n :: 0 <= n < |dataset.stops| && dataset.stops[n].id == key.id))
      && (key in stops ==> r.stops[key] == stops[key].(parent := r.stops[key].parent))
      && (key in r.stops && key !in stops ==>
            exists n: nat :: n < |dataset.stops| && dataset.stops[n].id == key.id
              && (forall m :: 0 <= m < n ==> dataset.stops[m].id != key.id)
              && r.stops[key] == StopRow(
                   dataset.stops[n].operator, dataset.stops[n].name, dataset.stops[n].mode,
                   dataset.stops[n].longitude, dataset.stops[n].latitude, r.stops[key].parent))
      && (key in r.stops ==>
            r.stops[key].parent ==
            if key in stops
              && (stops[key].parent.Some? || key.provider != provider || key.version != dataset.version)
            then stops[key].parent else ParentNamed(dataset.stops, r.stops, key))
      && |r.stops.Keys| == |stops.Keys| + r.counts.stopsInserted
  {
    hide InsertAll, LinkParents, ParentNamed;
    var scope := Scope(provider, dataset.version);
    FirstPass(stops, scope, dataset.stops, StopId, NewStop, key);
    FirstPassCounts(stops, scope, dataset.stops, StopId, NewStop);
    var stored := InsertStops(stops, scope, dataset.stops).0;
    var r := Ingested(stops, routes, dataset, provider);
    LinkParentsOnly(stored, scope, dataset.stops);
    ParentReadsKeys(dataset.stops, stored, r.stops, key);
    if key in stored {
      SecondPass(stored, scope, dataset.stops, key);
      if key !in stops {
        var n: nat :| IsFirst(dataset.stops, StopId, key.id, n) && stored[key] == NewStop(dataset.stops[n]);
      }
    }
  }

  /** The third count is that of the stops that have a parent now and had none, or were not stored, before. */
  lemma LinkedColumns(stops: Stops, routes: Routes, dataset: Dataset, provider: nat)
    ensures
      var r := Ingested(stops, routes, dataset, provider);
      r.counts.parentsLinked == |set key | key in r.stops && r.stops[key].parent.Some?
                                   && !(key in stops && stops[key].parent.Some?)|
  {
    hide InsertAll, LinkParents;
    var scope := Scope(provider, dataset.version);
    var stored := InsertStops(stops, scope, dataset.stops).0;
    var r := Ingested(stops, routes, dataset, provider);
    LinkParentsOnly(stored, scope, dataset.stops);
    SecondPassCounts(stored, scope, dataset.stops);
    forall key | key in stored
      ensures r.stops[key] != stored[key] <==>
                r.stops[key].parent.Some? && !(key in stops && stops[key].parent.Some?)
    {
      FirstPass(stops, scope, dataset.stops, StopId, NewStop, key);
      if key !in stops {
        var n: nat :| IsFirst(dataset.stops, StopId, key.id, n) && stored[key] == NewStop(dataset.stops[n]);
      }
    }
    assert (set key | key in stored && r.stops[key] != stored[key])
        == (set key | key in r.stops && r.stops[key].parent.Some? && !(key in stops && stops[key].parent.Some?));
  }
}
