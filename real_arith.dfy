/** Facts about products of reals that the solver does not find on its own. Each is
    stated over plain real parameters so that a caller only combines them linearly. */
module RealArith {

  /** The identity. A square is written `a * Same(a)` so that the solver keeps it a
      product of two factors instead of rewriting it to a power it reasons about poorly. */
  function Same(a: real): real { a }

  /** The square of a real. */
  function Sq(a: real): real { a * Same(a) }

  lemma MulPos(a: real, b: real)
    requires a > 0.0 && b > 0.0
    ensures a * b > 0.0
  {
  }

  lemma MulNeg(a: real, b: real)
    requires a < 0.0 && b < 0.0
    ensures a * b > 0.0
  {
  }

  lemma MulNegPos(a: real, b: real)
    requires a < 0.0 && b > 0.0
    ensures a * b < 0.0
  {
  }

  lemma MulStrict(a: real, b: real, c: real)
    requires a > b && c > 0.0
    ensures a * c > b * c
  {
  }

  lemma MulMono(a: real, b: real, c: real)
    requires a >= b && c >= 0.0
    ensures a * c >= b * c
  {
  }

  /** A square is never negative, and is zero only at zero. */
  lemma SquarePositive(a: real)
    ensures Sq(a) >= 0.0
    ensures a != 0.0 ==> Sq(a) > 0.0
    ensures a == 0.0 ==> Sq(a) == 0.0
  {
    if a > 0.0 {
      MulPos(a, Same(a));
    } else if a < 0.0 {
      MulNeg(a, Same(a));
    }
  }

  lemma SumOfSquaresPositive(a: real, b: real)
    requires a != 0.0 || b != 0.0
    ensures Sq(a) + Sq(b) > 0.0
  {
    SquarePositive(a);
    SquarePositive(b);
  }

  /** The non-negative square root of a positive number is positive. */
  lemma RootPositive(m: real, x: real)
    requires m >= 0.0 && Sq(m) == x && x > 0.0
    ensures m > 0.0
  {
    SquarePositive(m);
  }

  /** Squaring is strictly monotone on the non-negative reals. */
  lemma SquareMonotone(p: real, q: real)
    requires p >= 0.0 && q >= 0.0
    ensures p > q <==> Sq(p) > Sq(q)
  {
    if p > q {
      SquareLess(q, p);
    } else if q > p {
      SquareLess(p, q);
    }
  }

  lemma SquareLess(q: real, p: real)
    requires 0.0 <= q < p
    ensures Sq(q) < Sq(p)
  {
    MulStrict(p, q, Same(p));
    MulMono(Same(p), Same(q), q);
    assert Sq(p) == p * Same(p);
    assert Sq(q) == Same(q) * q;
    assert q * Same(p) == Same(p) * q;
  }

  /** The square of a product is the product of the squares. */
  lemma SquareProduct(a: real, b: real)
    ensures Sq(a * b) == Sq(a) * Sq(b)
  {
  }

  /** Scaling by a positive factor keeps the sign. */
  lemma SignOfScaled(a: real, p: real)
    requires p > 0.0
    ensures a * p > 0.0 <==> a > 0.0
    ensures a * p < 0.0 <==> a < 0.0
  {
    if a > 0.0 {
      MulPos(a, p);
    } else if a < 0.0 {
      MulNegPos(a, p);
    } else {
      assert a * p == 0.0;
    }
  }

  /** Scaling both sides by a positive factor keeps a strict comparison. */
  lemma ScaledCompare(a: real, t: real, p: real)
    requires p > 0.0
    ensures a > t <==> a * p > t * p
  {
    if a > t {
      MulStrict(a, t, p);
    } else {
      MulMono(t, a, p);
    }
  }

  /** Dividing by a non-zero factor and multiplying back gives the original. */
  lemma DivideBack(a: real, m: real)
    requires m != 0.0
    ensures m * (a / m) == a
  {
  }

  /** A positive factor common to both sides cancels. */
  lemma CancelPositive(k: real, s: real, t: real)
    requires k > 0.0 && k * s == k * t
    ensures s == t
  {
    if s > t {
      MulStrict(s, t, k);
    } else if t > s {
      MulStrict(t, s, k);
    }
  }

  /** Two dot products related by scaling every component. */
  lemma ScaledDot(ux: real, uy: real, wx: real, wy: real, m: real, n: real)
    ensures (ux * wx + uy * wy) * (m * n) == (m * ux) * (n * wx) + (m * uy) * (n * wy)
  {
  }

  /** A common factor of two squares distributes over their sum. */
  lemma FactorSum(k: real, s: real, t: real)
    ensures k * s + k * t == k * (s + t)
  {
  }

  /** A quotient of a part by a positive whole lies in [0, 1], and is positive
      when the part is. */
  lemma FractionBounds(a: real, n: real)
    requires n > 0.0 && 0.0 <= a <= n
    ensures 0.0 <= a / n <= 1.0
    ensures a > 0.0 ==> a / n > 0.0
  {
    var q := a / n;
    DivideBack(a, n);
    if q > 1.0 {
      MulStrict(q, 1.0, n);
    }
    if q < 0.0 {
      MulNegPos(q, n);
    }
  }

  /** Division by a non-zero number distributes over a sum. */
  lemma DivideSum(a: real, b: real, n: real)
    requires n != 0.0
    ensures (a + b) / n == a / n + b / n
  {
  }

  /** The square of a sum or a difference, expanded. */
  lemma SquareSum(a: real, b: real)
    ensures Sq(a + b) == Sq(a) + 2.0 * (a * b) + Sq(b)
    ensures Sq(a - b) == Sq(a) - 2.0 * (a * b) + Sq(b)
  {
  }

  /** The dot product of two unit vectors lies in [-1, 1]: the squared lengths of
      their sum and difference, 2 + 2d and 2 - 2d, are never negative. */
  lemma UnitDotBounds(ux: real, uy: real, wx: real, wy: real)
    requires Sq(ux) + Sq(uy) == 1.0 && Sq(wx) + Sq(wy) == 1.0
    ensures -1.0 <= ux * wx + uy * wy <= 1.0
  {
    SquareSum(ux, wx);
    SquareSum(uy, wy);
    SquarePositive(ux + wx);
    SquarePositive(uy + wy);
    SquarePositive(ux - wx);
    SquarePositive(uy - wy);
  }
}
