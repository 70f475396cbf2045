/** Sums of a function over a table, and how one inserted or updated row changes them. */
module Sums {

  function Min(x: int, y: int): int { if x < y then x else y }

  function Sum<T(!new)>(rows: seq<T>, f: T -> int): int
  {
    if |rows| == 0 then 0 else Sum(rows[..|rows| - 1], f) + f(rows[|rows| - 1])
  }

  lemma SumAppend<T(!new)>(rows: seq<T>, x: T, f: T -> int)
    ensures Sum(rows + [x], f) == Sum(rows, f) + f(x)
  {
    assert (rows + [x])[..|rows|] == rows;
  }

  lemma {:induction false} SumUpdate<T(!new)>(rows: seq<T>, i: nat, x: T, f: T -> int)
    requires i < |rows|
    ensures Sum(rows[i := x], f) == Sum(rows, f) - f(rows[i]) + f(x)
  {
    var n := |rows| - 1;
    if i == n {
      assert rows[i := x][..n] == rows[..n];
    } else {
      assert rows[i := x][..n] == rows[..n][i := x];
      SumUpdate(rows[..n], i, x, f);
    }
  }

  /** Two functions that agree on every row have the same sum. */
  lemma {:induction false} SumAgree<T(!new)>(rows: seq<T>, f: T -> int, g: T -> int)
    requires forall i :: 0 <= i < |rows| ==> f(rows[i]) == g(rows[i])
    ensures Sum(rows, f) == Sum(rows, g)
  {
    if |rows| > 0 {
      assert forall i :: 0 <= i < |rows| - 1 ==> rows[..|rows| - 1][i] == rows[i];
      SumAgree(rows[..|rows| - 1], f, g);
    }
  }

  /** A sum of non-negative parts is at least any one of them. */
  lemma {:induction false} SumCovers<T(!new)>(rows: seq<T>, f: T -> int)
    requires forall i :: 0 <= i < |rows| ==> f(rows[i]) >= 0
    ensures Sum(rows, f) >= 0
    ensures forall i :: 0 <= i < |rows| ==> f(rows[i]) <= Sum(rows, f)
  {
    if |rows| > 0 {
      assert forall i :: 0 <= i < |rows| - 1 ==> rows[..|rows| - 1][i] == rows[i];
      SumCovers(rows[..|rows| - 1], f);
    }
  }

  /** Two different rows contribute both. */
  lemma {:induction false} SumCoversTwo<T(!new)>(rows: seq<T>, i: nat, j: nat, f: T -> int)
    requires i < j < |rows|
    requires forall k :: 0 <= k < |rows| ==> f(rows[k]) >= 0
    ensures f(rows[i]) + f(rows[j]) <= Sum(rows, f)
  {
    var n := |rows| - 1;
    assert forall k :: 0 <= k < n ==> rows[..n][k] == rows[k];
    SumCovers(rows[..n], f);
    if j < n {
      SumCoversTwo(rows[..n], i, j, f);
    }
  }

  /** A positive sum has a positive row. */
  lemma {:induction false} SumWitness<T(!new)>(rows: seq<T>, f: T -> int) returns (i: nat)
    requires Sum(rows, f) > 0
    ensures i < |rows| && f(rows[i]) > 0
  {
    var n := |rows| - 1;
    if f(rows[n]) > 0 {
      i := n;
    } else {
      i := SumWitness(rows[..n], f);
    }
  }
}
