/** Small facts about products and quotients of reals, stated once for the proofs that need them. */
module RealFacts {

  lemma ProductPositive(a: real, b: real)
    requires a > 0.0 && b > 0.0
    ensures a * b > 0.0
  {
  }

  lemma FourPositive(a: real, b: real, c: real, d: real)
    requires a > 0.0 && b > 0.0 && c > 0.0 && d > 0.0
    ensures a * b * c / d > 0.0
  {
    ProductPositive(a, b);
    ProductPositive(a * b, c);
    QuotientPositive(a * b * c, d);
  }

  lemma ProductMonotone(a: real, b: real, c: real)
    requires a <= b && c >= 0.0
    ensures a * c <= b * c
  {
  }

  lemma QuotientPositive(a: real, b: real)
    requires a > 0.0 && b > 0.0
    ensures a / b > 0.0
  {
    assert (a / b) * b == a;
  }

  lemma QuotientMonotone(a: real, b: real, d: real)
    requires a <= b && d > 0.0
    ensures a / d <= b / d
  {
    var x, y := a / d, b / d;
    assert x * d == a && y * d == b;
    assert x > y ==> x * d > y * d;
  }

  lemma FractionMonotone(a: real, b: real, c: real, p: real, k: real)
    requires a <= b && c >= 0.0 && p > 0.0 && k > 0.0
    ensures p * k > 0.0 && a * c / (p * k) <= b * c / (p * k)
  {
    ProductMonotone(a, b, c);
    QuotientMonotone(a * c, b * c, p * k);
  }

  lemma QuotientCancels(a: real, b: real)
    requires a != 0.0
    ensures a * b / a == b
  {
    var q := a * b / a;
    assert q * a == a * b;
    assert (q - b) * a == 0.0;
  }

  lemma CancelFactor(p: real, n: real, k: real)
    requires p > 0.0 && k > 0.0
    ensures p * k > 0.0 && (p * n) / (p * k) == n / k
  {
    var q := n / k;
    assert q * k == n;
    assert q * (p * k) == p * n;
  }

  lemma QuotientBound(a: real, e: real, m: real)
    requires e > 0.0 && a / e <= m
    ensures a <= e * m
  {
    ProductMonotone(a / e, m, e);
    assert (a / e) * e == a;
  }

  lemma QuotientBetween(x: real, d: real, low: real, high: real)
    requires d > 0.0 && low * d <= x <= high * d
    ensures low <= x / d <= high && (x / d) * d == x
  {
    var q := x / d;
    assert q * d == x;
    assert q < low ==> q * d < low * d;
    assert q > high ==> q * d > high * d;
  }

  lemma QuotientStrict(a: real, b: real, d: real)
    requires a < b && d > 0.0
    ensures a / d < b / d
  {
    var x, y := a / d, b / d;
    assert x * d == a && y * d == b;
    assert x >= y ==> x * d >= y * d;
  }
}
