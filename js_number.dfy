/** JavaScript numbers as far as the analyzer needs them: exact rationals for
    finite values, and the special values that a division by zero produces.
    Floating-point rounding is not modelled. */
module JsNumber {

  datatype Num = Finite(value: real) | NaN | PosInf | NegInf

  /** `a / b` with JavaScript's rules for a zero divisor: 0/0 is NaN, a
      non-zero value over 0 is an infinity of the numerator's sign. */
  function Quotient(a: real, b: real): (r: Num)
    ensures b != 0.0 ==> r == Finite(a / b)
    ensures b == 0.0 ==> (r.NaN? <==> a == 0.0) && (r.PosInf? <==> a > 0.0) && (r.NegInf? <==> a < 0.0)
  {
    if b != 0.0 then Finite(a / b)
    else if a == 0.0 then NaN
    else if a > 0.0 then PosInf
    else NegInf
  }

  /** `x > t` for a finite threshold t; every comparison with NaN is false. */
  predicate Greater(x: Num, t: real) {
    match x
    case Finite(v) => v > t
    case PosInf => true
    case _ => false
  }

  /** `x < t` for a finite threshold t. */
  predicate Less(x: Num, t: real) {
    match x
    case Finite(v) => v < t
    case NegInf => true
    case _ => false
  }

  /** `x * k` for a positive finite factor: NaN and the infinities are kept. */
  function Times(x: Num, k: real): (r: Num)
    requires k > 0.0
    ensures r.Finite? <==> x.Finite?
    ensures x.Finite? ==> r.value == x.value * k
  {
    match x
    case Finite(v) => Finite(v * k)
    case _ => x
  }

  /** `x > y` between two JavaScript numbers: false whenever NaN is involved,
      and an infinity exceeds exactly the values on its side of it. */
  predicate GreaterNum(x: Num, y: Num) {
    match (x, y)
    case (Finite(a), Finite(b)) => a > b
    case (PosInf, Finite(_)) => true
    case (PosInf, NegInf) => true
    case (Finite(_), NegInf) => true
    case _ => false
  }

  /** A count divided by a positive message or sentence count. */
  function Rate(count: int, total: nat): real
    requires total >= 1
  {
    count as real / total as real
  }

  /** Comparing a rate with the fraction p/q is comparing the cross products:
      this is what lets the classifiers stay in integer arithmetic. */
  lemma RateVersusFraction(count: int, total: nat, p: int, q: nat)
    requires total >= 1 && q >= 1
    ensures Rate(count, total) > p as real / q as real <==> q * count > p * total
    ensures Rate(count, total) < p as real / q as real <==> q * count < p * total
    ensures Rate(count, total) == p as real / q as real <==> q * count == p * total
  {
    var r := Rate(count, total);
    var f := p as real / q as real;
    assert r * total as real == count as real;
    assert f * q as real == p as real;
    assert (q * count) as real == r * (total as real) * (q as real);
    assert (p * total) as real == f * (q as real) * (total as real);
    assert (total as real) * (q as real) > 0.0;
    if r > f {
      assert r * ((total as real) * (q as real)) > f * ((total as real) * (q as real));
    } else if r < f {
      assert r * ((total as real) * (q as real)) < f * ((total as real) * (q as real));
    }
  }

  /** `count / total > p / q` in JavaScript: a count over zero messages is
      +Infinity, which exceeds every threshold, or NaN when the count is zero
      too, which exceeds none. Otherwise the comparison is the cross
      product. */
  predicate RateAbove(count: nat, total: nat, p: nat, q: nat) {
    if total == 0 then count > 0 else q * count > p * total
  }

  /** `count / total < p / q`: neither +Infinity nor NaN is below a threshold. */
  predicate RateBelow(count: nat, total: nat, p: nat, q: nat) {
    total >= 1 && q * count < p * total
  }

  /** The cross-multiplied comparisons are the JavaScript comparisons of the
      quotient, zero divisor included. */
  lemma RateComparisons(count: nat, total: nat, p: nat, q: nat)
    requires q >= 1
    ensures RateAbove(count, total, p, q) <==> Greater(Quotient(count as real, total as real), p as real / q as real)
    ensures RateBelow(count, total, p, q) <==> Less(Quotient(count as real, total as real), p as real / q as real)
  {
    if total >= 1 {
      RateVersusFraction(count, total, p, q);
    }
  }

  /** Two rates over the same positive total compare, after scaling one of
      them by k, as the counts do. */
  lemma ScaledRates(a: nat, b: nat, total: nat, k: real)
    requires total >= 1 && k > 0.0
    ensures Rate(a, total) > Rate(b, total) * k <==> a as real > b as real * k
  {
    var x, y, n := Rate(a, total), Rate(b, total), total as real;
    assert x * n == a as real;
    assert y * n == b as real;
    assert (y * k) * n == b as real * k;
    if x > y * k {
      PositiveProduct(x - y * k, n);
    } else {
      assert (y * k - x) * n >= 0.0 by {
        if y * k - x > 0.0 { PositiveProduct(y * k - x, n); }
      }
    }
  }

  /** A standard deviation over a positive mean, compared with a non-negative
      threshold, is the variance compared with the squared threshold times
      the squared mean: this is why the model can keep variances instead of
      square roots. */
  lemma SquareComparison(sd: real, variance: real, mean: real, c: real)
    requires sd >= 0.0 && sd * sd == variance && mean > 0.0 && c >= 0.0
    ensures sd / mean > c <==> variance > c * c * (mean * mean)
    ensures sd / mean < c <==> variance < c * c * (mean * mean)
  {
    QuotientVersusProduct(sd, mean, c);
    assert c * mean >= 0.0;
    SquareMonotone(sd, c * mean);
    assert (c * mean) * (c * mean) == c * c * (mean * mean);
  }

  lemma PositiveProduct(a: real, b: real)
    requires a > 0.0 && b > 0.0
    ensures a * b > 0.0
  {
  }

  lemma SquareMonotone(x: real, c: real)
    requires x >= 0.0 && c >= 0.0
    ensures x > c <==> x * x > c * c
    ensures x < c <==> x * x < c * c
  {
    assert x * x - c * c == (x - c) * (x + c);
    if x > c {
      PositiveProduct(x - c, x + c);
    } else if x < c {
      PositiveProduct(c - x, x + c);
    }
  }

  lemma QuotientVersusProduct(a: real, b: real, c: real)
    requires b > 0.0
    ensures a / b > c <==> a > c * b
    ensures a / b < c <==> a < c * b
  {
    var x := a / b;
    assert x * b == a;
    if x > c {
      PositiveProduct(x - c, b);
    } else if x < c {
      PositiveProduct(c - x, b);
    }
  }
}
