/** Facts about real multiplication and division that the solver does not
    find on its own once the operands are products of several inputs. */
module Arith {

  /** A product of three reals is zero exactly when one factor is. */
  lemma ProductZero(a: real, b: real, c: real)
    ensures a * b * c == 0.0 <==> a == 0.0 || b == 0.0 || c == 0.0
  {
    if a != 0.0 && b != 0.0 {
      assert a * b != 0.0;
    }
  }

  /** A cube is zero exactly when its base is. */
  lemma CubeZero(h: real)
    ensures h * h * h == 0.0 <==> h == 0.0
  {
    if h != 0.0 {
      assert h * h != 0.0;
    }
  }

  /** Dividing by d and multiplying by d again gives back x. */
  lemma DivMul(x: real, d: real)
    requires d != 0.0
    ensures x / d * d == x
  {
  }

  /** A quotient is zero exactly when its numerator is. */
  lemma QuotientZero(x: real, d: real)
    requires d != 0.0
    ensures x / d == 0.0 <==> x == 0.0
  {
    DivMul(x, d);
  }

  /** Dividing by n/d is multiplying by d/n. */
  lemma DivQuotient(x: real, n: real, d: real)
    requires n != 0.0 && d != 0.0
    ensures x / (n / d) == x * d / n
  {
    var q := n / d;
    DivMul(n, d);
    assert q != 0.0;
    DivMul(x, q);
    assert x / q * q == x;
    assert x / q * n == x * d by {
      calc {
        x / q * n;
        x / q * (q * d);
        (x / q * q) * d;
        x * d;
      }
    }
    DivMul(x * d, n);
  }

  /** The cube of a product is the product of the cubes. */
  lemma CubeOfProduct(c: real, l: real)
    ensures (c * l) * (c * l) * (c * l) == (c * c * c) * (l * l * l)
  {
    assert (c * l) * (c * l) == (c * c) * (l * l);
  }

  /** Regrouping a quotient that is multiplied further. */
  lemma QuotientRegroup(p: real, a: real, b: real, n: real)
    requires n != 0.0
    ensures p * a / n * b == p / n * (a * b)
  {
    ScaleQuotient(a, p, n);
    assert p * a / n == a * (p / n);
  }

  /** Two non-negative values, negated and scaled by the same positive factor,
      keep their order reversed and stay non-positive. */
  lemma NegScaledOrder(yj: real, yk: real, rj: real, rk: real, c: real)
    requires yj == -rj * c && yk == -rk * c
    requires 0.0 <= rj <= rk && c > 0.0
    ensures yk <= yj <= 0.0
  {
    MulMono(0.0, rj, c);
    MulMono(rj, rk, c);
  }

  /** Multiplying by a non-negative factor keeps an order. */
  lemma MulMono(a: real, b: real, c: real)
    requires a <= b && c >= 0.0
    ensures a * c <= b * c
    ensures -b * c <= -a * c
  {
    assert (b - a) * c >= 0.0;
    assert -b * c == -(b * c) && -a * c == -(a * c);
  }

  /** Squaring keeps the order of non-negative reals. */
  lemma SquareMono(s: real, t: real)
    requires 0.0 <= s <= t
    ensures s * s <= t * t
  {
    MulMono(s, t, s);
    MulMono(s, t, t);
  }

  /** Scaling the numerator scales the quotient. */
  lemma ScaleQuotient(c: real, x: real, d: real)
    requires d != 0.0
    ensures c * x / d == c * (x / d)
  {
  }
}
