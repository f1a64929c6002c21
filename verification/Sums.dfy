// Finite sums over table rows and over row numbers.
module Sums {

  /** The sum of a weight over the rows of a table. */
  function SumBy<T>(rows: seq<T>, weight: T -> int): int
  {
    if rows == [] then 0 else SumBy(rows[..|rows| - 1], weight) + weight(rows[|rows| - 1])
  }

  lemma SumAppend<T>(rows: seq<T>, row: T, weight: T -> int)
    ensures SumBy(rows + [row], weight) == SumBy(rows, weight) + weight(row)
  {
  }

  /** Updating one row moves the sum by the difference of that row's weights. */
  lemma {:induction false} SumUpdate<T>(rows: seq<T>, i: nat, row: T, weight: T -> int)
    requires i < |rows|
    ensures SumBy(rows[i := row], weight) == SumBy(rows, weight) - weight(rows[i]) + weight(row)
  {
    var last := |rows| - 1;
    if i == last {
      assert rows[i := row][..last] == rows[..last];
    } else {
      assert rows[i := row][..last] == rows[..last][i := row];
      SumUpdate(rows[..last], i, row, weight);
    }
  }

  /** Sums agree when the weights agree row by row. */
  lemma {:induction false} SumEqual<S, T>(a: seq<S>, b: seq<T>, f: S -> int, g: T -> int)
    requires |a| == |b|
    requires forall i :: 0 <= i < |a| ==> f(a[i]) == g(b[i])
    ensures SumBy(a, f) == SumBy(b, g)
  {
    if a != [] {
      SumEqual(a[..|a| - 1], b[..|b| - 1], f, g);
    }
  }

  lemma {:induction false} SumAtMost<S, T>(a: seq<S>, b: seq<T>, f: S -> int, g: T -> int)
    requires |a| == |b|
    requires forall i :: 0 <= i < |a| ==> f(a[i]) <= g(b[i])
    ensures SumBy(a, f) <= SumBy(b, g)
  {
    if a != [] {
      SumAtMost(a[..|a| - 1], b[..|b| - 1], f, g);
    }
  }

  lemma {:induction false} SumZero<T>(rows: seq<T>, weight: T -> int)
    requires forall i :: 0 <= i < |rows| ==> weight(rows[i]) == 0
    ensures SumBy(rows, weight) == 0
  {
    if rows != [] {
      SumZero(rows[..|rows| - 1], weight);
    }
  }

  lemma {:induction false} SumConcat<T>(a: seq<T>, b: seq<T>, weight: T -> int)
    ensures SumBy(a + b, weight) == SumBy(a, weight) + SumBy(b, weight)
    decreases |b|
  {
    if b == [] {
      assert a + b == a;
    } else {
      assert (a + b)[..|a + b| - 1] == a + b[..|b| - 1];
      SumConcat(a, b[..|b| - 1], weight);
    }
  }

  /** Rows that weigh nothing can be left off the end. */
  lemma {:induction false} SumPrefix<T>(rows: seq<T>, n: nat, weight: T -> int)
    requires n <= |rows|
    requires forall i :: n <= i < |rows| ==> weight(rows[i]) == 0
    ensures SumBy(rows, weight) == SumBy(rows[..n], weight)
    decreases |rows|
  {
    if n == |rows| {
      assert rows[..n] == rows;
    } else {
      SumPrefix(rows[..|rows| - 1], n, weight);
      assert rows[..|rows| - 1][..n] == rows[..n];
    }
  }

  /** With weights that are never negative, one row never outweighs the sum, nor do two. */
  lemma {:induction false} SumBounds<T>(rows: seq<T>, weight: T -> int)
    requires forall i :: 0 <= i < |rows| ==> weight(rows[i]) >= 0
    ensures SumBy(rows, weight) >= 0
    ensures forall i :: 0 <= i < |rows| ==> weight(rows[i]) <= SumBy(rows, weight)
    ensures forall i, j :: 0 <= i < j < |rows| ==> weight(rows[i]) + weight(rows[j]) <= SumBy(rows, weight)
  {
    if rows != [] {
      var front := rows[..|rows| - 1];
      SumBounds(front, weight);
      assert forall i :: 0 <= i < |front| ==> rows[i] == front[i];
    }
  }

  /** The sum of a weight over the row numbers 0 .. n - 1. */
  function SumTo(n: nat, weight: nat -> int): int
  {
    if n == 0 then 0 else SumTo(n - 1, weight) + weight(n - 1)
  }

  lemma {:induction false} SumToEqual(n: nat, f: nat -> int, g: nat -> int)
    requires forall i: nat :: i < n ==> f(i) == g(i)
    ensures SumTo(n, f) == SumTo(n, g)
  {
    if n > 0 {
      SumToEqual(n - 1, f, g);
    }
  }

  /** Two weights that agree except at one row number p differ in sum by their difference at p. */
  lemma {:induction false} SumToDiffersAt(n: nat, p: nat, f: nat -> int, g: nat -> int)
    requires p < n
    requires forall i: nat :: i < n && i != p ==> f(i) == g(i)
    ensures SumTo(n, f) == SumTo(n, g) - g(p) + f(p)
  {
    if p == n - 1 {
      SumToEqual(n - 1, f, g);
    } else {
      SumToDiffersAt(n - 1, p, f, g);
    }
  }

  lemma {:induction false} SumToAtMost(n: nat, f: nat -> int, g: nat -> int)
    requires forall i: nat :: i < n ==> f(i) <= g(i)
    ensures SumTo(n, f) <= SumTo(n, g)
  {
    if n > 0 {
      SumToAtMost(n - 1, f, g);
    }
  }
}
