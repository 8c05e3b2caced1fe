/** Sums, filters and first matches over table rows, and how they react to one changed row. */
module Sums {
  import opened Wrappers

  function Sum<T>(rows: seq<T>, f: T -> int): int {
    if rows == [] then 0 else Sum(rows[..|rows| - 1], f) + f(rows[|rows| - 1])
  }

  function Filter<T>(rows: seq<T>, p: T -> bool): seq<T> {
    if rows == [] then []
    else
      var n := |rows| - 1;
      if p(rows[n]) then Filter(rows[..n], p) + [rows[n]] else Filter(rows[..n], p)
  }

  /** Position of the first row that satisfies p. */
  function FindFirst<T>(rows: seq<T>, p: T -> bool): (r: Option<nat>)
    ensures r.Some? ==> r.value < |rows| && p(rows[r.value]) && forall j :: 0 <= j < r.value ==> !p(rows[j])
    ensures r.None? ==> forall j :: 0 <= j < |rows| ==> !p(rows[j])
  {
    if rows == [] then None
    else
      var n := |rows| - 1;
      match FindFirst(rows[..n], p)
      case Some(j) => Some(j)
      case None => if p(rows[n]) then Some(n) else None
  }

  function Max(a: int, b: int): int {
    if a < b then b else a
  }

  lemma SumAppend<T>(rows: seq<T>, x: T, f: T -> int)
    ensures Sum(rows + [x], f) == Sum(rows, f) + f(x)
  {
    assert (rows + [x])[..|rows|] == rows;
  }

  lemma FilterAppend<T>(rows: seq<T>, x: T, p: T -> bool)
    ensures Filter(rows + [x], p) == (if p(x) then Filter(rows, p) + [x] else Filter(rows, p))
  {
    assert (rows + [x])[..|rows|] == rows;
  }

  /** Two functions that differ on one row only have sums that differ by that row. */
  lemma {:induction false} SumPoint<T>(rows: seq<T>, k: nat, f: T -> int, g: T -> int)
    requires k < |rows|
    requires forall j :: 0 <= j < |rows| && j != k ==> f(rows[j]) == g(rows[j])
    ensures Sum(rows, g) == Sum(rows, f) - f(rows[k]) + g(rows[k])
  {
    var n := |rows| - 1;
    if k == n {
      SumCongruent(rows[..n], f, g);
    } else {
      SumPoint(rows[..n], k, f, g);
    }
  }

  lemma {:induction false} SumCongruent<T>(rows: seq<T>, f: T -> int, g: T -> int)
    requires forall j :: 0 <= j < |rows| ==> f(rows[j]) == g(rows[j])
    ensures Sum(rows, f) == Sum(rows, g)
  {
    if rows != [] {
      SumCongruent(rows[..|rows| - 1], f, g);
    }
  }

  lemma {:induction false} SumUpdate<T>(rows: seq<T>, k: nat, x: T, f: T -> int)
    requires k < |rows|
    ensures Sum(rows[k := x], f) == Sum(rows, f) - f(rows[k]) + f(x)
  {
    var n := |rows| - 1;
    if k == n {
      assert rows[k := x][..n] == rows[..n];
    } else {
      assert rows[k := x][..n] == rows[..n][k := x];
      SumUpdate(rows[..n], k, x, f);
    }
  }

  lemma {:induction false} SumConcat<T>(a: seq<T>, b: seq<T>, f: T -> int)
    ensures Sum(a + b, f) == Sum(a, f) + Sum(b, f)
  {
    if b == [] {
      assert a + b == a;
    } else {
      var n := |b| - 1;
      assert (a + b)[..|a| + n] == a + b[..n];
      SumConcat(a, b[..n], f);
    }
  }

  function RemoveAt<T>(rows: seq<T>, k: nat): seq<T>
    requires k < |rows|
  {
    rows[..k] + rows[k + 1..]
  }

  lemma SumRemove<T>(rows: seq<T>, k: nat, f: T -> int)
    requires k < |rows|
    ensures Sum(RemoveAt(rows, k), f) == Sum(rows, f) - f(rows[k])
  {
    SumConcat(rows[..k], rows[k + 1..], f);
    SumConcat(rows[..k + 1], rows[k + 1..], f);
    assert rows == rows[..k + 1] + rows[k + 1..];
    assert rows[..k + 1][..k] == rows[..k];
  }

  lemma {:induction false} SumAtMost<T>(rows: seq<T>, f: T -> int, g: T -> int)
    requires forall j :: 0 <= j < |rows| ==> f(rows[j]) <= g(rows[j])
    ensures Sum(rows, f) <= Sum(rows, g)
  {
    if rows != [] {
      SumAtMost(rows[..|rows| - 1], f, g);
    }
  }

  /** A sum of non-negative terms is at least any one of them. */
  lemma {:induction false} SumAtLeastTerm<T>(rows: seq<T>, k: nat, f: T -> int)
    requires k < |rows|
    requires forall j :: 0 <= j < |rows| ==> 0 <= f(rows[j])
    ensures f(rows[k]) <= Sum(rows, f)
  {
    var n := |rows| - 1;
    if k == n {
      SumNonNegative(rows[..n], f);
    } else {
      SumAtLeastTerm(rows[..n], k, f);
    }
  }

  lemma {:induction false} SumNonNegative<T>(rows: seq<T>, f: T -> int)
    requires forall j :: 0 <= j < |rows| ==> 0 <= f(rows[j])
    ensures 0 <= Sum(rows, f)
  {
    if rows != [] {
      SumNonNegative(rows[..|rows| - 1], f);
    }
  }

  lemma {:induction false} SumOfZeros<T>(rows: seq<T>, f: T -> int)
    requires forall j :: 0 <= j < |rows| ==> f(rows[j]) == 0
    ensures Sum(rows, f) == 0
  {
    if rows != [] {
      SumOfZeros(rows[..|rows| - 1], f);
    }
  }

  lemma {:induction false} FilterMember<T>(rows: seq<T>, p: T -> bool, x: T)
    ensures x in Filter(rows, p) <==> x in rows && p(x)
  {
    if rows != [] {
      var n := |rows| - 1;
      FilterMember(rows[..n], p, x);
      assert rows == rows[..n] + [rows[n]];
    }
  }
}
