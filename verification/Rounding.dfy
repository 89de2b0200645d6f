/** Decimal's two roundings as the source uses them: quantize() defaults to ROUND_HALF_EVEN (the rules),
    invoices name ROUND_HALF_UP. Decimals are exact reals here. */
module Rounding {

  function HalfEven(x: real): int {
    var f := x.Floor;
    var d := x - f as real;
    if d < 0.5 || (d == 0.5 && f % 2 == 0) then f else f + 1
  }

  /** Half up rounds a tie away from zero. */
  function HalfUp(x: real): int {
    if x >= 0.0 then (x + 0.5).Floor else -((0.5 - x).Floor)
  }

  ghost predicate Nearest(x: real, n: int) {
    -0.5 <= n as real - x <= 0.5
  }

  /** HalfEven is the nearest integer, the even one of two. */
  lemma HalfEvenIff(x: real, n: int)
    ensures n == HalfEven(x) <==> Nearest(x, n) && ((n as real - x == 0.5 || x - n as real == 0.5) ==> n % 2 == 0)
  {
    var f := x.Floor;
    assert f as real <= x < f as real + 1.0;
    if Nearest(x, n) {
      assert n == f || n == f + 1;
    }
  }

  /** HalfUp is the nearest integer, the one further from zero of two. */
  lemma HalfUpIff(x: real, n: int)
    ensures n == HalfUp(x) <==>
              Nearest(x, n) && ((n as real - x == 0.5 || x - n as real == 0.5) ==> (x >= 0.0 <==> n as real > x))
  {
    if x >= 0.0 {
      var f := (x + 0.5).Floor;
      assert f as real <= x + 0.5 < f as real + 1.0;
    } else {
      var f := (0.5 - x).Floor;
      assert f as real <= 0.5 - x < f as real + 1.0;
    }
  }

  lemma HalfEvenMonotone(x: real, y: real)
    requires x <= y
    ensures HalfEven(x) <= HalfEven(y)
  {
    HalfEvenIff(x, HalfEven(x));
    HalfEvenIff(y, HalfEven(y));
    if x < y {
      assert HalfEven(x) as real < HalfEven(y) as real + 1.0;
    }
  }

  lemma HalfEvenWhole(n: int)
    ensures HalfEven(n as real) == n
  {
    HalfEvenIff(n as real, n);
  }

  lemma HalfUpWhole(n: int)
    ensures HalfUp(n as real) == n
  {
    HalfUpIff(n as real, n);
  }

  /** quantize(Decimal("0.01")): an amount rounded to whole cents, as an amount. */
  function Cents(x: real): real {
    HalfEven(x * 100.0) as real / 100.0
  }

  lemma CentsMonotone(x: real, y: real)
    requires x <= y
    ensures Cents(x) <= Cents(y)
  {
    HalfEvenMonotone(x * 100.0, y * 100.0);
  }

  lemma CentsNear(x: real)
    ensures -0.005 <= Cents(x) - x <= 0.005
  {
    HalfEvenIff(x * 100.0, HalfEven(x * 100.0));
  }

  /** A non-negative amount rounds to nothing up to half a cent. */
  lemma CentsOfPositive(x: real)
    requires x >= 0.0
    ensures Cents(x) >= 0.0 && (Cents(x) <= 0.0 <==> x <= 0.005)
  {
    HalfEvenIff(x * 100.0, HalfEven(x * 100.0));
    HalfEvenIff(x * 100.0, 0);
  }

  lemma CentsZero()
    ensures Cents(0.0) == 0.0
  {
    HalfEvenWhole(0);
  }
}
