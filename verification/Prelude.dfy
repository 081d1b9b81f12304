/** Small shared vocabulary: optional values, failures, and the SELECT ... WHERE of the in-memory tables. */
module Prelude {

  /** Seconds since an arbitrary epoch; every clock reading is a parameter. */
  type Time = int

  datatype Option<+T> = None | Some(value: T)

  /** Why a transaction is rolled back. */
  datatype Error =
    | RowNotFound        // LookupError
    | MultipleRows       // sqlalchemy MultipleResultsFound
    | Rejected           // MergeError
    | HumanRequired      // HumanActionRequired
    | NotACompletion     // ValueError

  datatype Result<+T> = Success(value: T) | Failure(error: Error) {
    predicate IsFailure() {
      Failure?
    }

    function PropagateFailure<U>(): Result<U>
      requires Failure?
    {
      Failure(error)
    }

    function Extract(): T
      requires Success?
    {
      value
    }
  }

  function Max(a: int, b: int): int {
    if a < b then b else a
  }

  function Min(a: int, b: int): int {
    if a < b then a else b
  }

  /** The positions of the rows that satisfy `p`, in table order. */
  function Where<T>(rows: seq<T>, p: T -> bool): (ids: seq<nat>)
    ensures forall i :: 0 <= i < |ids| ==> ids[i] < |rows| && p(rows[ids[i]])
    ensures forall row: nat :: row < |rows| && p(rows[row]) ==> row in ids
    ensures forall i, j :: 0 <= i < j < |ids| ==> ids[i] < ids[j]
  {
    if rows == [] then
      []
    else
      var last := |rows| - 1;
      var front := Where(rows[..last], p);
      if p(rows[last]) then front + [last] else front
  }

  lemma {:induction false} WhereNone<T>(rows: seq<T>, p: T -> bool)
    requires forall i :: 0 <= i < |rows| ==> !p(rows[i])
    ensures Where(rows, p) == []
  {
    if rows != [] {
      WhereNone(rows[..|rows| - 1], p);
    }
  }

  lemma WhereOne<T>(rows: seq<T>, p: T -> bool)
    requires |rows| == 1 && p(rows[0])
    ensures Where(rows, p) == [0]
  {
    assert Where(rows[..0], p) == [];
  }

  /** How many rows satisfy `p`. */
  function CountIf<T>(rows: seq<T>, p: T -> bool): (n: nat)
    ensures n <= |rows|
  {
    if rows == [] then
      0
    else
      CountIf(rows[..|rows| - 1], p) + if p(rows[|rows| - 1]) then 1 else 0
  }

  lemma {:induction false} CountIfUpdate<T>(rows: seq<T>, i: nat, row: T, p: T -> bool)
    requires i < |rows|
    ensures CountIf(rows[i := row], p)
         == CountIf(rows, p) - (if p(rows[i]) then 1 else 0) + (if p(row) then 1 else 0)
  {
    var last := |rows| - 1;
    var updated := rows[i := row];
    if i == last {
      assert updated[..last] == rows[..last];
    } else {
      assert updated[..last] == rows[..last][i := row];
      CountIfUpdate(rows[..last], i, row, p);
    }
  }

  lemma {:induction false} CountIfAppend<T>(rows: seq<T>, more: seq<T>, p: T -> bool)
    ensures CountIf(rows + more, p) == CountIf(rows, p) + CountIf(more, p)
  {
    if more == [] {
      assert rows + more == rows;
    } else {
      var last := |more| - 1;
      assert (rows + more)[..|rows + more| - 1] == rows + more[..last];
      CountIfAppend(rows, more[..last], p);
    }
  }
}
