// Totals over a table. A table is a sequence of rows whose index is the row's
// primary key: rows are appended, updated in place, and never removed.
module Sums {

  function Sum<T>(rows: seq<T>, f: T -> int): int {
    if |rows| == 0 then 0 else Sum(rows[..|rows| - 1], f) + f(rows[|rows| - 1])
  }

  lemma SumAppend<T>(rows: seq<T>, r: T, f: T -> int)
    ensures Sum(rows + [r], f) == Sum(rows, f) + f(r)
  {
    assert (rows + [r])[..|rows|] == rows;
  }

  lemma {:induction false} SumUpdate<T>(rows: seq<T>, i: nat, r: T, f: T -> int)
    requires i < |rows|
    ensures Sum(rows[i := r], f) == Sum(rows, f) - f(rows[i]) + f(r)
  {
    var last := |rows| - 1;
    if i < last {
      assert rows[i := r][..last] == rows[..last][i := r];
      SumUpdate(rows[..last], i, r, f);
    } else {
      assert rows[i := r][..last] == rows[..last];
    }
  }

  // Two readings that agree row by row have the same total.
  lemma {:induction false} SumSame<T>(rows: seq<T>, f: T -> int, g: T -> int)
    requires forall i :: 0 <= i < |rows| ==> f(rows[i]) == g(rows[i])
    ensures Sum(rows, f) == Sum(rows, g)
  {
    if |rows| > 0 {
      SumSame(rows[..|rows| - 1], f, g);
    }
  }

  lemma {:induction false} SumZero<T>(rows: seq<T>, f: T -> int)
    requires forall i :: 0 <= i < |rows| ==> f(rows[i]) == 0
    ensures Sum(rows, f) == 0
  {
    if |rows| > 0 {
      SumZero(rows[..|rows| - 1], f);
    }
  }

  lemma {:induction false} SumNonnegative<T>(rows: seq<T>, f: T -> int)
    requires forall i :: 0 <= i < |rows| ==> f(rows[i]) >= 0
    ensures Sum(rows, f) >= 0
  {
    if |rows| > 0 {
      SumNonnegative(rows[..|rows| - 1], f);
    }
  }

  // Of nonnegative rows, one or two different ones never exceed the total.
  lemma {:induction false} SumAtLeastOne<T>(rows: seq<T>, i: nat, f: T -> int)
    requires i < |rows|
    requires forall k :: 0 <= k < |rows| ==> f(rows[k]) >= 0
    ensures f(rows[i]) <= Sum(rows, f)
  {
    var rest := rows[..|rows| - 1];
    SumNonnegative(rest, f);
    if i < |rest| {
      SumAtLeastOne(rest, i, f);
    }
  }

  lemma {:induction false} SumAtLeastTwo<T>(rows: seq<T>, i: nat, j: nat, f: T -> int)
    requires i < j < |rows|
    requires forall k :: 0 <= k < |rows| ==> f(rows[k]) >= 0
    ensures f(rows[i]) + f(rows[j]) <= Sum(rows, f)
  {
    var rest := rows[..|rows| - 1];
    if j < |rest| {
      SumAtLeastTwo(rest, i, j, f);
    } else {
      SumAtLeastOne(rest, i, f);
    }
  }

  // A single row that counts is the whole total.
  lemma {:induction false} SumOnly<T>(rows: seq<T>, i: nat, f: T -> int)
    requires i < |rows|
    requires forall k :: 0 <= k < |rows| && k != i ==> f(rows[k]) == 0
    ensures Sum(rows, f) == f(rows[i])
  {
    var rest := rows[..|rows| - 1];
    if i < |rest| { SumOnly(rest, i, f); } else { SumZero(rest, f); }
  }

  lemma {:induction false} SumConcat<T>(rows: seq<T>, more: seq<T>, f: T -> int)
    ensures Sum(rows + more, f) == Sum(rows, f) + Sum(more, f)
  {
    if |more| == 0 {
      assert rows + more == rows;
    } else {
      var last := |more| - 1;
      SumConcat(rows, more[..last], f);
      assert (rows + more)[..|rows| + last] == rows + more[..last];
    }
  }

  // Two tables that read the same row by row have the same total.
  lemma {:induction false} SumAgree<T>(rows: seq<T>, other: seq<T>, f: T -> int)
    requires |rows| == |other| && forall i :: 0 <= i < |rows| ==> f(rows[i]) == f(other[i])
    ensures Sum(rows, f) == Sum(other, f)
  {
    if |rows| > 0 { SumAgree(rows[..|rows| - 1], other[..|rows| - 1], f); }
  }
}
