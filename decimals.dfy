/**
 * Exact decimal numbers as Python's decimal.Decimal and Django's DecimalField
 * hold them: an integer number of units of 10^-exp.
 */
module Decimals {

  /** The number units / 10^exp. */
  datatype Decimal = Decimal(units: int, exp: nat)

  function Pow10(n: nat): (r: nat)
    ensures r >= 1
  {
    if n == 0 then 1 else 10 * Pow10(n - 1)
  }

  lemma {:induction false} Pow10Add(m: nat, n: nat)
    ensures Pow10(m + n) == Pow10(m) * Pow10(n)
    decreases m
  {
    if m > 0 {
      Pow10Add(m - 1, n);
    }
  }

  /**
   * Integer division truncating toward zero, as Python's int() does to a quotient:
   * the result is the integer nearest to a / b on the side of zero.
   */
  function TruncDiv(a: int, b: int): (q: int)
    requires b > 0
    ensures a >= 0 ==> 0 <= q * b <= a < (q + 1) * b
    ensures a < 0 ==> (q - 1) * b < a <= q * b <= 0
  {
    if a >= 0 then
      DivBounds(a, b);
      a / b
    else
      DivBounds(-a, b);
      -((-a) / b)
  }

  /** Euclidean division of a non-negative number, stated without `%`. */
  lemma DivBounds(a: int, b: int)
    requires a >= 0 && b > 0
    ensures 0 <= (a / b) * b <= a < (a / b + 1) * b
  {
    var q, r := a / b, a % b;
    assert a == q * b + r && 0 <= r < b;
    assert (q + 1) * b == q * b + b;
  }

  /** Multiplying by a positive number keeps strict order, and so does cancelling it. */
  lemma MulCancelLess(p: int, r: int, b: int)
    requires b > 0
    ensures p * b < r * b <==> p < r
  {
    assert r * b - p * b == (r - p) * b;
    if p < r {
      MulPositive(r - p, b);
    } else {
      MulNonNegative(p - r, b);
    }
  }

  lemma MulPositive(x: int, y: int)
    requires x > 0 && y > 0
    ensures x * y > 0
  {
  }

  lemma MulNonNegative(x: int, y: int)
    requires x >= 0 && y >= 0
    ensures x * y >= 0
  {
  }

  /** The quotient is the integer whose multiples of `b` bracket `a`. */
  lemma TruncDivUnique(a: int, b: int, q: int)
    requires b > 0
    requires a >= 0 ==> q * b <= a < (q + 1) * b
    requires a < 0 ==> (q - 1) * b < a <= q * b
    ensures TruncDiv(a, b) == q
  {
    var p := TruncDiv(a, b);
    if a >= 0 {
      MulCancelLess(p, q + 1, b);
      MulCancelLess(q, p + 1, b);
    } else {
      MulCancelLess(p - 1, q, b);
      MulCancelLess(q - 1, p, b);
    }
  }

  lemma TruncDivMonotone(x: int, y: int, b: int)
    requires b > 0 && x <= y
    ensures TruncDiv(x, b) <= TruncDiv(y, b)
  {
    var p, q := TruncDiv(x, b), TruncDiv(y, b);
    if x >= 0 {
      MulCancelLess(p, q + 1, b);
    } else if y < 0 {
      MulCancelLess(p - 1, q, b);
    } else {
      MulCancelLess(0, p, b);
      MulCancelLess(q, 0, b);
    }
  }

  /** The quotient is unchanged when both operands are multiplied by the same positive factor. */
  lemma TruncDivCancel(a: int, b: int, m: int)
    requires b > 0 && m > 0
    ensures TruncDiv(a * m, b * m) == TruncDiv(a, b)
  {
    var q := TruncDiv(a, b);
    var bm := b * m;
    MulPositive(b, m);
    assert q * bm == (q * b) * m;
    assert (q + 1) * bm == ((q + 1) * b) * m;
    assert (q - 1) * bm == ((q - 1) * b) * m;
    if a >= 0 {
      MulCancelLess(a, (q + 1) * b, m);
      MulCancelLess(a, q * b, m);
      MulNonNegative(a, m);
    } else {
      MulCancelLess((q - 1) * b, a, m);
      MulCancelLess(q * b, a, m);
      MulCancelLess(a, 0, m);
    }
    TruncDivUnique(a * m, bm, q);
  }

  /** a <= b as numbers. */
  predicate LessEq(a: Decimal, b: Decimal) {
    a.units * Pow10(b.exp) <= b.units * Pow10(a.exp)
  }

  /** The same number written with `k` more decimal places. */
  function Rescale(d: Decimal, k: nat): (r: Decimal)
    ensures r.exp == d.exp + k
  {
    Decimal(d.units * Pow10(k), d.exp + k)
  }

  /** d * n, exact, keeping the number of decimal places, as Decimal multiplication by an int does. */
  function Times(d: Decimal, n: int): Decimal {
    Decimal(d.units * n, d.exp)
  }

  /**
   * int(Decimal(str(amount)) * 100): the amount in hundredths (paise for rupees),
   * with any further decimal places truncated toward zero.
   */
  function ToHundredths(d: Decimal): (p: int)
    ensures d.units >= 0 ==> 0 <= p * Pow10(d.exp) <= d.units * 100 < (p + 1) * Pow10(d.exp)
    ensures d.units < 0 ==> (p - 1) * Pow10(d.exp) < d.units * 100 <= p * Pow10(d.exp) <= 0
  {
    TruncDiv(d.units * 100, Pow10(d.exp))
  }

  /** With at most two decimal places the conversion is exact: the amount times 100. */
  lemma ToHundredthsExact(d: Decimal)
    requires d.exp <= 2
    ensures ToHundredths(d) == d.units * Pow10(2 - d.exp)
    ensures ToHundredths(d) * Pow10(d.exp) == d.units * 100
  {
    if d.exp == 0 {
      assert Pow10(0) == 1 && Pow10(2) == 100;
    } else if d.exp == 1 {
      assert Pow10(1) == 10;
      TruncDivCancel(d.units * 10, 1, 10);
    } else {
      assert Pow10(2) == 100 && Pow10(0) == 1;
      TruncDivCancel(d.units, 1, 100);
    }
  }

  /** 29.99 rupees is 2999 paise. */
  lemma ToHundredthsExample()
    ensures ToHundredths(Decimal(2999, 2)) == 2999
  {
    ToHundredthsExact(Decimal(2999, 2));
  }

  /** Writing the same number with more decimal places does not change its conversion. */
  lemma ToHundredthsRescale(d: Decimal, k: nat)
    ensures ToHundredths(Rescale(d, k)) == ToHundredths(d)
  {
    Pow10Add(d.exp, k);
    assert d.units * Pow10(k) * 100 == (d.units * 100) * Pow10(k);
    TruncDivCancel(d.units * 100, Pow10(d.exp), Pow10(k));
  }

  /** The conversion is monotone: a <= b implies ToHundredths(a) <= ToHundredths(b). */
  lemma ToHundredthsMonotone(a: Decimal, b: Decimal)
    requires LessEq(a, b)
    ensures ToHundredths(a) <= ToHundredths(b)
  {
    var a' := Rescale(a, b.exp);
    var b' := Rescale(b, a.exp);
    ToHundredthsRescale(a, b.exp);
    ToHundredthsRescale(b, a.exp);
    assert a'.exp == b'.exp;
    assert a'.units <= b'.units;
    TruncDivMonotone(a'.units * 100, b'.units * 100, Pow10(a'.exp));
  }
}
