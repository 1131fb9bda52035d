/** Vocabulary shared by every component: optional values and sums over rows. */
module Common {

  datatype Option<+T> = None | Some(value: T)

  function Max(a: int, b: int): int {
    if a > b then a else b
  }

  function Min(a: int, b: int): int {
    if a < b then a else b
  }

  /** The number the source rounds to with Math.round, or Decimal's half-up rule, for x >= 0. */
  function RoundHalfUp(x: real): int {
    (x + 0.5).Floor
  }

  /** The total of f over a list of rows, newest row last. */
  function Sum<T>(f: T -> int, rows: seq<T>): int {
    if rows == [] then 0 else Sum(f, rows[..|rows| - 1]) + f(rows[|rows| - 1])
  }

  lemma {:induction false} SumAppend<T>(f: T -> int, rows: seq<T>, row: T)
    ensures Sum(f, rows + [row]) == Sum(f, rows) + f(row)
  {
    assert (rows + [row])[..|rows|] == rows;
  }

  lemma {:induction false} SumConcat<T>(f: T -> int, a: seq<T>, b: seq<T>)
    ensures Sum(f, a + b) == Sum(f, a) + Sum(f, b)
  {
    if b == [] {
      assert a + b == a;
    } else {
      var n := |b| - 1;
      SumConcat(f, a, b[..n]);
      assert a + b == (a + b[..n]) + [b[n]];
      SumAppend(f, a + b[..n], b[n]);
    }
  }

  /** Replacing one row moves the total by the difference of its two contributions. */
  lemma {:induction false} SumUpdate<T>(f: T -> int, rows: seq<T>, i: nat, row: T)
    requires i < |rows|
    ensures Sum(f, rows[i := row]) == Sum(f, rows) - f(rows[i]) + f(row)
  {
    var n := |rows| - 1;
    if i == n {
      assert rows[i := row][..n] == rows[..n];
    } else {
      SumUpdate(f, rows[..n], i, row);
      assert rows[i := row][..n] == rows[..n][i := row];
    }
  }

  lemma {:induction false} SumMonotone<T>(f: T -> int, g: T -> int, rows: seq<T>)
    requires forall i :: 0 <= i < |rows| ==> f(rows[i]) <= g(rows[i])
    ensures Sum(f, rows) <= Sum(g, rows)
  {
    if rows != [] {
      SumMonotone(f, g, rows[..|rows| - 1]);
    }
  }

  lemma {:induction false} SumEqual<T>(f: T -> int, g: T -> int, rows: seq<T>)
    requires forall i :: 0 <= i < |rows| ==> f(rows[i]) == g(rows[i])
    ensures Sum(f, rows) == Sum(g, rows)
  {
    SumMonotone(f, g, rows);
    SumMonotone(g, f, rows);
  }

  /** Two tables whose rows contribute alike have the same total. */
  lemma {:induction false} SumPointwise<T>(f: T -> int, a: seq<T>, b: seq<T>)
    requires |a| == |b| && forall i :: 0 <= i < |a| ==> f(a[i]) == f(b[i])
    ensures Sum(f, a) == Sum(f, b)
  {
    if a != [] {
      SumPointwise(f, a[..|a| - 1], b[..|b| - 1]);
    }
  }

  /** A total of non-negative contributions is at least any one of them. */
  lemma {:induction false} SumAtLeast<T>(f: T -> int, rows: seq<T>, i: nat)
    requires i < |rows|
    requires forall j :: 0 <= j < |rows| ==> f(rows[j]) >= 0
    ensures Sum(f, rows) >= f(rows[i])
    decreases |rows|
  {
    var n := |rows| - 1;
    SumNonNegative(f, rows[..n]);
    if i < n {
      SumAtLeast(f, rows[..n], i);
    }
  }

  lemma {:induction false} SumNonNegative<T>(f: T -> int, rows: seq<T>)
    requires forall j :: 0 <= j < |rows| ==> f(rows[j]) >= 0
    ensures Sum(f, rows) >= 0
  {
    if rows != [] {
      SumNonNegative(f, rows[..|rows| - 1]);
    }
  }

  lemma {:induction false} SumZero<T>(f: T -> int, rows: seq<T>)
    requires forall j :: 0 <= j < |rows| ==> f(rows[j]) == 0
    ensures Sum(f, rows) == 0
  {
    if rows != [] {
      SumZero(f, rows[..|rows| - 1]);
    }
  }

  /** Taking one row out of a table takes out its contribution. */
  lemma {:induction false} SumRemove<T>(f: T -> int, rows: seq<T>, k: nat)
    requires k < |rows|
    ensures Sum(f, rows) == Sum(f, rows[..k] + rows[k + 1..]) + f(rows[k])
  {
    hide Sum;
    var a, b := rows[..k], rows[k + 1..];
    assert rows == (a + [rows[k]]) + b;
    SumConcat(f, a + [rows[k]], b);
    SumAppend(f, a, rows[k]);
    SumConcat(f, a, b);
  }

  /** A row that occurs in a table can be taken out of it. */
  lemma FindRow<T>(rows: seq<T>, x: T) returns (k: nat)
    requires x in multiset(rows)
    ensures k < |rows| && rows[k] == x && rows == rows[..k] + [x] + rows[k + 1..]
    ensures multiset(rows[..k] + rows[k + 1..]) == multiset(rows) - multiset{x}
  {
    k :| 0 <= k < |rows| && rows[k] == x;
    assert rows == rows[..k] + [x] + rows[k + 1..];
  }

  lemma WithoutLast<T>(rows: seq<T>)
    requires rows != []
    ensures rows[|rows| - 1] in multiset(rows)
    ensures multiset(rows[..|rows| - 1]) == multiset(rows) - multiset{rows[|rows| - 1]}
  {
    assert rows == rows[..|rows| - 1] + [rows[|rows| - 1]];
  }

  /** A total does not depend on the order of the rows. */
  lemma {:induction false} SumPermutation<T>(f: T -> int, a: seq<T>, b: seq<T>)
    requires multiset(a) == multiset(b)
    ensures Sum(f, a) == Sum(f, b)
    decreases |a|
  {
    if a == [] {
      assert |multiset(b)| == 0;
    } else {
      var n := |a| - 1;
      WithoutLast(a);
      var k := FindRow(b, a[n]);
      SumPermutation(f, a[..n], b[..k] + b[k + 1..]);
      SumRemove(f, b, k);
    }
  }
}
