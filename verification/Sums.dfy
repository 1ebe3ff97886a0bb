/** Sums of a figure over a table of records. */
module Sums {

  function Sum<T>(rows: seq<T>, f: T -> real): real {
    if rows == [] then 0.0 else Sum(rows[..|rows| - 1], f) + f(rows[|rows| - 1])
  }

  lemma SumAppend<T>(rows: seq<T>, x: T, f: T -> real)
    ensures Sum(rows + [x], f) == Sum(rows, f) + f(x)
  {
    assert (rows + [x])[..|rows|] == rows;
  }

  /** Changing one row changes the sum by the change of that row's figure. */
  lemma {:induction false} SumUpdate<T>(rows: seq<T>, i: nat, x: T, f: T -> real)
    requires i < |rows|
    ensures Sum(rows[i := x], f) == Sum(rows, f) - f(rows[i]) + f(x)
  {
    var last := |rows| - 1;
    if i == last {
      assert rows[i := x][..last] == rows[..last];
    } else {
      assert rows[i := x][..last] == rows[..last][i := x];
      SumUpdate(rows[..last], i, x, f);
    }
  }

  lemma {:induction false} SumConcat<T>(a: seq<T>, b: seq<T>, f: T -> real)
    ensures Sum(a + b, f) == Sum(a, f) + Sum(b, f)
  {
    if b == [] {
      assert a + b == a;
    } else {
      var last := |b| - 1;
      assert (a + b)[..|a| + last] == a + b[..last];
      SumConcat(a, b[..last], f);
    }
  }

  /** The two lemmas above for every figure at once. */
  lemma SumsAppend<T(!new)>(rows: seq<T>, x: T)
    ensures forall f: T -> real {:trigger Sum(rows + [x], f)} :: Sum(rows + [x], f) == Sum(rows, f) + f(x)
  {
    forall f: T -> real ensures Sum(rows + [x], f) == Sum(rows, f) + f(x) {
      SumAppend(rows, x, f);
    }
  }

  lemma SumsUpdate<T(!new)>(rows: seq<T>, i: nat, x: T)
    requires i < |rows|
    ensures forall f: T -> real {:trigger Sum(rows[i := x], f)} ::
      Sum(rows[i := x], f) == Sum(rows, f) - f(rows[i]) + f(x)
  {
    forall f: T -> real ensures Sum(rows[i := x], f) == Sum(rows, f) - f(rows[i]) + f(x) {
      SumUpdate(rows, i, x, f);
    }
  }

  /** Termwise. */
  lemma {:induction false} SumEqual<T>(rows: seq<T>, f: T -> real, g: T -> real)
    requires forall i :: 0 <= i < |rows| ==> f(rows[i]) == g(rows[i])
    ensures Sum(rows, f) == Sum(rows, g)
  {
    if rows != [] {
      SumEqual(rows[..|rows| - 1], f, g);
    }
  }

  lemma {:induction false} SumSplit<T>(rows: seq<T>, whole: T -> real, f: T -> real, g: T -> real)
    requires forall i :: 0 <= i < |rows| ==> whole(rows[i]) == f(rows[i]) + g(rows[i])
    ensures Sum(rows, whole) == Sum(rows, f) + Sum(rows, g)
  {
    if rows != [] {
      SumSplit(rows[..|rows| - 1], whole, f, g);
    }
  }

  lemma {:induction false} SumZero<T>(rows: seq<T>, f: T -> real)
    requires forall i :: 0 <= i < |rows| ==> f(rows[i]) == 0.0
    ensures Sum(rows, f) == 0.0
  {
    if rows != [] {
      SumZero(rows[..|rows| - 1], f);
    }
  }

  lemma {:induction false} SumNonNegative<T>(rows: seq<T>, f: T -> real)
    requires forall i :: 0 <= i < |rows| ==> f(rows[i]) >= 0.0
    ensures Sum(rows, f) >= 0.0
    ensures forall i :: 0 <= i < |rows| ==> f(rows[i]) <= Sum(rows, f)
  {
    if rows != [] {
      SumNonNegative(rows[..|rows| - 1], f);
    }
  }

  /** A sum does not depend on the order of its rows. */
  lemma {:induction false} SumPermutation<T>(a: seq<T>, b: seq<T>, f: T -> real)
    requires multiset(a) == multiset(b)
    ensures Sum(a, f) == Sum(b, f)
  {
    if a == [] {
      assert |b| == |multiset(b)| == |multiset(a)| == 0;
    } else {
      var last := |a| - 1;
      var x := a[last];
      assert a == a[..last] + [x];
      assert x in multiset(b);
      var i :| 0 <= i < |b| && b[i] == x;
      assert b == b[..i] + [x] + b[i + 1..];
      var rest := b[..i] + b[i + 1..];
      assert multiset(a[..last]) == multiset(a) - multiset{x} == multiset(b) - multiset{x} == multiset(rest);
      SumPermutation(a[..last], rest, f);
      SumConcat(b[..i], b[i + 1..], f);
      SumConcat(b[..i] + [x], b[i + 1..], f);
      SumAppend(b[..i], x, f);
    }
  }
}
