/** Rounding to cents, as Python's `round(x, 2)` does it in exact arithmetic:
    to the nearest cent, a half cent going to the even neighbour. */
module Money {

  /** Nearest integer, ties to even. */
  function RoundHalfEven(y: real): (k: int)
    ensures -0.5 <= k as real - y <= 0.5
    ensures y - y.Floor as real == 0.5 ==> k % 2 == 0
  {
    var f := y.Floor;
    var d := y - f as real;
    if d < 0.5 then f
    else if d > 0.5 then f + 1
    else if f % 2 == 0 then f else f + 1
  }

  function RoundCents(x: real): (r: real)
    ensures -0.005 <= r - x <= 0.005
    ensures WholeCents(r)
  {
    RoundHalfEven(x * 100.0) as real / 100.0
  }

  predicate WholeCents(x: real) {
    (x * 100.0).Floor as real == x * 100.0
  }

  predicate NearestCent(rounded: real, exact: real) {
    WholeCents(rounded) && -0.005 <= rounded - exact <= 0.005
  }

  /** Anything closer than half a cent to a whole number of cents rounds to it. */
  lemma NearestIsUnique(x: real, c: real)
    requires WholeCents(c)
    requires -0.005 < x - c < 0.005
    ensures RoundCents(x) == c
  {
    var k := (c * 100.0).Floor;
    var n := RoundHalfEven(x * 100.0);
    assert -1.0 < (n - k) as real < 1.0;
  }

  lemma RoundKeepsWholeCents(x: real)
    requires WholeCents(x)
    ensures RoundCents(x) == x
  {
    NearestIsUnique(x, x);
  }

  lemma IntegersAdd(a: real, b: real)
    requires a.Floor as real == a && b.Floor as real == b
    ensures (a + b).Floor as real == a + b
    ensures (a - b).Floor as real == a - b
  {
    IsFloor(a + b, a.Floor + b.Floor);
    IsFloor(a - b, a.Floor - b.Floor);
  }

  lemma IsFloor(a: real, k: int)
    requires a == k as real
    ensures a.Floor == k
  {
  }

  lemma WholeCentsAdd(x: real, y: real)
    requires WholeCents(x) && WholeCents(y)
    ensures WholeCents(x + y) && WholeCents(x - y)
  {
    IntegersAdd(x * 100.0, y * 100.0);
  }

  /** Rounding respects the order. */
  lemma RoundMonotone(x: real, y: real)
    requires x <= y
    ensures RoundCents(x) <= RoundCents(y)
  {
    var a, b := x * 100.0, y * 100.0;
    assert a.Floor <= b.Floor;
  }

  /** Two amounts in whole cents that are less than two cents apart are at most one cent apart. */
  lemma CentsApart(x: real, y: real)
    requires WholeCents(x) && WholeCents(y)
    requires -0.02 < x - y < 0.02
    ensures -0.01 <= x - y <= 0.01
  {
    var i, j := (x * 100.0).Floor, (y * 100.0).Floor;
    assert (i - j) as real == (x - y) * 100.0;
  }
}
