/** Exact real arithmetic for the classifiers' scores. Products and quotients
    go through `Mul` and `Div`, so that a proof can match two of them by their
    factors; the lemmas here are the only places that look inside. */
module Reals {

  /** `x · y`. */
  function Mul(x: real, y: real): real {
    x * y
  }

  /** `x / y`. */
  function Div(x: real, y: real): real
    requires y != 0.0
  {
    x / y
  }

  /** Dividing and multiplying back by the same value cancels. */
  lemma {:induction false} DivMul(a: real, d: real)
    requires d != 0.0
    ensures Mul(Div(a, d), d) == a
  {
  }

  lemma {:induction false} MulZero(d: real)
    ensures Mul(0.0, d) == 0.0
  {
  }

  /** Scaling distributes over a sum. */
  lemma {:induction false} MulDistributes(a: real, b: real, d: real)
    ensures Mul(a + b, d) == Mul(a, d) + Mul(b, d)
  {
  }

  /** Multiplying by a positive value keeps the sign. */
  lemma {:induction false} SignOfProduct(x: real, s: real)
    requires s > 0.0
    ensures x > 0.0 <==> Mul(x, s) > 0.0
    ensures x == 0.0 <==> Mul(x, s) == 0.0
  {
  }

  /** A non-negative numerator no larger than the positive denominator gives a
      quotient in [0, 1], and 0 only for a zero numerator. */
  lemma {:induction false} DivInUnit(a: real, b: real)
    requires 0.0 <= a <= b && 0.0 < b
    ensures 0.0 <= Div(a, b) <= 1.0
    ensures Div(a, b) == 0.0 <==> a == 0.0
  {
    var q := Div(a, b);
    DivMul(a, b);
    SignOfProduct(q, b);
    assert Mul(q - 1.0, b) == a - b;
    SignOfProduct(q - 1.0, b);
  }

  /** Multiplying a value in `[0, bound]` by a factor in `[0, 1]` stays in
      `[0, bound]`, and is 0 only when a factor is. */
  lemma {:induction false} ScaledStaysBelow(x: real, y: real, bound: real)
    requires 0.0 <= x <= bound && 0.0 <= y <= 1.0
    ensures 0.0 <= Mul(x, y) <= bound
    ensures Mul(x, y) == 0.0 <==> x == 0.0 || y == 0.0
  {
    assert x * (1.0 - y) >= 0.0;
    assert x * y <= x;
  }

  /** A value that scales a positive `d` to `d` itself is 1. */
  lemma {:induction false} ScaleCancel(p: real, d: real)
    requires d > 0.0 && Mul(p, d) == d
    ensures p == 1.0
  {
    assert Mul(p - 1.0, d) == 0.0;
    SignOfProduct(p - 1.0, d);
  }

  /** The share `a / (a + b)` of two non-negative values with a positive sum lies in
      [0, 1], exceeds one half exactly when `a > b`, and equals one half exactly when
      `a == b`; it is 0 when `a` is and 1 when `b` is. */
  lemma {:induction false} ShareFacts(a: real, b: real)
    requires 0.0 <= a && 0.0 <= b && a + b > 0.0
    ensures 0.0 <= Div(a, a + b) <= 1.0
    ensures Div(a, a + b) > 0.5 <==> a > b
    ensures Div(a, a + b) == 0.5 <==> a == b
    ensures a == 0.0 ==> Div(a, a + b) == 0.0
    ensures b == 0.0 ==> Div(a, a + b) == 1.0
  {
    var s := a + b;
    var q := Div(a, s);
    DivMul(a, s);
    DivInUnit(a, s);
    assert Mul(q - 0.5, s) == (a - b) / 2.0;
    SignOfProduct(q - 0.5, s);
    assert Mul(q - 1.0, s) == -b;
    SignOfProduct(q - 1.0, s);
  }
}
