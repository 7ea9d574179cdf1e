/** Ordinary arithmetic the other modules lean on, and Python's rounding. */
module Arithmetic {

  function Abs(x: real): real { if x < 0.0 then -x else x }

  function Max(a: int, b: int): int { if a >= b then a else b }

  function Min(a: int, b: int): int { if a <= b then a else b }

  function Larger(a: real, b: real): real { if a >= b then a else b }

  function Smaller(a: real, b: real): real { if a <= b then a else b }

  // ----- monotone multiplication and division

  lemma Scale(a: real, b: real, c: real)
    requires a <= b && c >= 0.0
    ensures a * c <= b * c && c * a <= c * b
  {
  }

  lemma ScaleBoth(x: real, y: real, a: real, b: real)
    requires 0.0 <= x <= y && 0.0 <= a <= b
    ensures 0.0 <= x * a <= y * b
  {
    Scale(a, b, x);
    Scale(x, y, b);
    Scale(0.0, a, x);
  }

  lemma ScaleStrict(a: real, b: real, c: real)
    requires a < b && c > 0.0
    ensures a * c < b * c
  {
    assert (b - a) * c > 0.0;
  }

  lemma ScaledOrder(a: real, b: real, c: real)
    requires c > 0.0
    ensures a <= b <==> a * c <= b * c
  {
    if a <= b {
      Scale(a, b, c);
    } else {
      ScaleStrict(b, a, c);
    }
  }

  lemma Unscale(a: real, b: real, c: real)
    requires c > 0.0 && a * c <= b * c
    ensures a <= b
  {
  }

  lemma Divide(a: real, b: real, d: real)
    requires a <= b && d > 0.0
    ensures a / d <= b / d && 0.0 / d == 0.0 && d / d == 1.0
  {
    var x, y := a / d, b / d;
    assert x * d == a && y * d == b;
    Unscale(x, y, d);
  }

  lemma DivideBack(a: real, d: real)
    requires d > 0.0
    ensures a / d * d == a
  {
  }

  lemma ShareOf(x: real, pct: real)
    ensures x * (pct / 100.0) == x * pct / 100.0
  {
  }

  // The part of a whole that a share of it is.
  function Portion(whole: real, share: real): real { whole * share }

  lemma PortionEnds(whole: real)
    ensures Portion(whole, 0.0) == 0.0 && Portion(whole, 1.0) == whole
  {
  }

  lemma PortionSteps(whole: real, a: real, b: real)
    requires whole >= 0.0 && a <= b
    ensures Portion(whole, a) <= Portion(whole, b)
  {
    Scale(a, b, whole);
  }

  lemma PortionGrows(whole: real, a: real, b: real)
    requires whole >= 0.0 && 0.0 <= a <= b <= 1.0
    ensures 0.0 <= Portion(whole, a) <= Portion(whole, b) <= whole
    ensures Portion(whole, 1.0) == whole
  {
    hide Portion;
    PortionEnds(whole);
    PortionSteps(whole, 0.0, a);
    PortionSteps(whole, a, b);
    PortionSteps(whole, b, 1.0);
  }

  // ----- rounding to the nearest integer, ties to the even neighbour

  function HalfEven(x: real): (n: int)
    ensures -0.5 <= n as real - x <= 0.5
  {
    var f := x.Floor;
    var d := x - f as real;
    if d < 0.5 || (d == 0.5 && f % 2 == 0) then f else f + 1
  }

  lemma HalfEvenWhole(n: int)
    ensures HalfEven(n as real) == n
  {
  }

  // Halfway between two integers, the even one.
  lemma HalfEvenTies(n: int)
    ensures HalfEven(n as real + 0.5) == if n % 2 == 0 then n else n + 1
  {
    assert (n as real + 0.5).Floor == n;
  }

  lemma HalfEvenMonotone(x: real, y: real)
    requires x <= y
    ensures HalfEven(x) <= HalfEven(y)
  {
    if x.Floor == y.Floor {
    } else {
      assert x.Floor + 1 <= y.Floor;
    }
  }

  lemma RoundsBelowZero(x: real)
    ensures HalfEven(x) < 0 <==> x < -0.5
  {
    if x >= 0.0 {
      assert x.Floor >= 0;
    } else if x >= -0.5 {
      assert x.Floor == -1;
    } else if x >= -1.0 {
      assert x.Floor == -1;
    } else {
      assert x.Floor <= -2;
    }
  }
}
