/**
 * In-memory repository tables: a table is the sequence of its rows in
 * `findAll` order, and a query is a row predicate. Counting and filtering are
 * what the derived and JPQL queries of the repositories do with such a predicate.
 */
module Tables {
  import opened Base

  /** A repository: its rows, in insertion order. */
  class Table<T> {
    var rows: seq<T>

    constructor (initial: seq<T>)
      ensures rows == initial
    {
      rows := initial;
    }

    /** `save` of a new entity: the row is appended, nothing else changes. */
    method Insert(row: T)
      modifies this
      ensures rows == old(rows) + [row]
    {
      rows := rows + [row];
    }

    /** `save` of an entity already loaded from row `i`: that row is replaced, nothing else changes. */
    method Replace(i: nat, row: T)
      requires i < |rows|
      modifies this
      ensures rows == old(rows)[i := row]
    {
      rows := rows[i := row];
    }

    /** A delete: the selected rows go, the others stay in order. */
    method DeleteWhere(drop: T -> bool)
      modifies this
      ensures rows == RemoveWhere(old(rows), drop)
    {
      rows := RemoveWhere(rows, drop);
    }
  }

  /** The number of rows the query selects (a `count...` query). */
  function Count<T>(rows: seq<T>, keep: T -> bool): (n: nat)
    ensures n <= |rows|
  {
    if rows == [] then 0
    else Count(rows[..|rows| - 1], keep) + (if keep(rows[|rows| - 1]) then 1 else 0)
  }

  /** The set of positions the query selects: an independent account of `Count`. */
  ghost function Matching<T>(rows: seq<T>, keep: T -> bool): set<nat>
  {
    set i: nat | i < |rows| && keep(rows[i])
  }

  lemma {:induction false} CountIsMatching<T>(rows: seq<T>, keep: T -> bool)
    ensures Count(rows, keep) == |Matching(rows, keep)|
  {
    if rows != [] {
      var n := |rows| - 1;
      var front := rows[..n];
      CountIsMatching(front, keep);
      var m := Matching(rows, keep);
      var mf := Matching(front, keep);
      if keep(rows[n]) {
        assert m == mf + {n};
        assert n !in mf;
      } else {
        assert m == mf;
      }
    }
  }

  /** A query that selects no row counts zero. */
  lemma {:induction false} CountNone<T>(rows: seq<T>, keep: T -> bool)
    requires forall x :: x in rows ==> !keep(x)
    ensures Count(rows, keep) == 0
  {
    if rows != [] {
      CountNone(rows[..|rows| - 1], keep);
    }
  }

  /** A query counts zero exactly when it selects no row. */
  lemma {:induction false} CountZeroIff<T>(rows: seq<T>, keep: T -> bool)
    ensures Count(rows, keep) == 0 <==> forall x :: x in rows ==> !keep(x)
  {
    if forall x :: x in rows ==> !keep(x) {
      CountNone(rows, keep);
    } else {
      var i :| 0 <= i < |rows| && keep(rows[i]);
      CountIsMatching(rows, keep);
      assert i in Matching(rows, keep);
    }
  }

  /** A query that counts one selects one row value: any two selected rows are equal. */
  lemma {:induction false} CountOneUnique<T>(rows: seq<T>, keep: T -> bool)
    requires Count(rows, keep) == 1
    ensures forall x, y :: x in rows && keep(x) && y in rows && keep(y) ==> x == y
  {
    CountIsMatching(rows, keep);
    forall x, y | x in rows && keep(x) && y in rows && keep(y)
      ensures x == y
    {
      var i :| 0 <= i < |rows| && rows[i] == x;
      var j :| 0 <= j < |rows| && rows[j] == y;
      assert i in Matching(rows, keep) && j in Matching(rows, keep);
      if i != j {
        assert {i, j} <= Matching(rows, keep);
        assert |{i, j}| == 2;
        SubsetSize({i, j}, Matching(rows, keep));
        assert false;
      }
    }
  }

  lemma SubsetSize(a: set<nat>, b: set<nat>)
    requires a <= b
    ensures |a| <= |b|
  {
    assert b == a + (b - a);
  }

  /** Appending one row adds one to a count exactly when the row is selected. */
  lemma {:induction false} CountAppend<T>(rows: seq<T>, row: T, keep: T -> bool)
    ensures Count(rows + [row], keep) == Count(rows, keep) + (if keep(row) then 1 else 0)
  {
    assert (rows + [row])[..|rows|] == rows;
  }

  /** The rows the query selects, in table order (a list query). */
  function Filter<T>(rows: seq<T>, keep: T -> bool): (r: seq<T>)
    ensures |r| == Count(rows, keep)
    ensures forall x :: x in r ==> x in rows && keep(x)
    ensures forall x :: x in rows && keep(x) ==> x in r
    ensures multiset(r) <= multiset(rows)
    ensures forall x :: x in rows && keep(x) ==> multiset(r)[x] == multiset(rows)[x]
  {
    if rows == [] then []
    else
      var front := Filter(rows[..|rows| - 1], keep);
      var last := rows[|rows| - 1];
      assert rows == rows[..|rows| - 1] + [last];
      assert forall x :: x in rows ==> x in rows[..|rows| - 1] || x == last;
      if keep(last) then front + [last] else front
  }

  /** The position of the first selected row, if any (a single-row lookup). */
  function IndexOf<T>(rows: seq<T>, keep: T -> bool): (r: Option<nat>)
    ensures r.Some? ==> r.value < |rows| && keep(rows[r.value])
    ensures r.Some? ==> forall j :: 0 <= j < r.value ==> !keep(rows[j])
    ensures r.None? <==> forall j :: 0 <= j < |rows| ==> !keep(rows[j])
  {
    if rows == [] then None
    else if keep(rows[0]) then Some(0)
    else match IndexOf(rows[1..], keep)
      case None => None
      case Some(k) => Some(k + 1)
  }

  /** The first selected row, if any. */
  function Find<T>(rows: seq<T>, keep: T -> bool): (r: Option<T>)
    ensures r.Some? ==> r.value in rows && keep(r.value)
    ensures r.None? <==> forall x :: x in rows ==> !keep(x)
  {
    match IndexOf(rows, keep)
    case None => None
    case Some(k) => Some(rows[k])
  }

  /**
   * A JPQL query declared to return one `Optional` row: empty when nothing
   * matches, the row when one does, and IncorrectResultSize when several do.
   */
  function FindUnique<T>(rows: seq<T>, keep: T -> bool): (r: Result<Option<T>, Error>)
    ensures r == Success(None) <==> forall x :: x in rows ==> !keep(x)
    ensures r == Success(None) <==> Count(rows, keep) == 0
    ensures r.Failure? <==> Count(rows, keep) > 1
    ensures r.Failure? ==> r.error == IncorrectResultSize
    ensures r.Success? && r.value.Some? ==> r.value.value in rows && keep(r.value.value)
    ensures Count(rows, keep) == 1 ==> forall x :: x in rows && keep(x) ==> r == Success(Some(x))
  {
    CountZeroIff(rows, keep);
    var n := Count(rows, keep);
    if n == 0 then Success(None)
    else if n == 1 then
      CountOneUnique(rows, keep);
      match Find(rows, keep)
      case Some(row) => Success(Some(row))
      case None => assert false; Success(None)
    else Failure(IncorrectResultSize)
  }

  /** The complement of a row predicate. */
  function Not<T>(drop: T -> bool): T -> bool
  {
    x => !drop(x)
  }

  /** Every row is either selected or not: the two counts add up to the table size. */
  lemma {:induction false} CountComplement<T>(rows: seq<T>, drop: T -> bool)
    ensures Count(rows, Not(drop)) + Count(rows, drop) == |rows|
  {
    if rows != [] {
      CountComplement(rows[..|rows| - 1], drop);
    }
  }

  /**
   * The table without the selected rows (a delete): exactly as many rows as
   * were not selected, each kept as often as it occurred.
   */
  function RemoveWhere<T>(rows: seq<T>, drop: T -> bool): (r: seq<T>)
    ensures |r| == |rows| - Count(rows, drop)
    ensures multiset(r) <= multiset(rows)
    ensures forall x :: x in rows && !drop(x) ==> multiset(r)[x] == multiset(rows)[x]
    ensures forall x :: x in r ==> x in rows && !drop(x)
    ensures forall x :: x in rows && !drop(x) ==> x in r
  {
    CountComplement(rows, drop);
    Filter(rows, Not(drop))
  }
}
