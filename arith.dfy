/** Small facts of real and integer arithmetic that the solver does not find
    unaided (products and Euclidean division). */
module Arith {

  /** `Math.min` and `Math.max` on two reals. */
  function Min(a: real, b: real): real { if a <= b then a else b }
  function Max(a: real, b: real): real { if a <= b then b else a }

  /** A product under a name of its own.  Facts stated about `Mul(a, b)`
      reach a caller's `a * b` by matching the name rather than through
      nonlinear arithmetic, which keeps those proofs cheap. */
  function Mul(a: real, b: real): real { a * b }

  lemma MulNonneg(x: real, y: real)
    requires x >= 0.0 && y >= 0.0
    ensures Mul(x, y) >= 0.0
  {}

  lemma MulMono(x: real, y: real, z: real)
    requires x >= 0.0 && y <= z
    ensures Mul(x, y) <= Mul(x, z)
  {
    MulNonneg(x, z - y);
    assert x * (z - y) == x * z - x * y;
  }

  lemma MulComm(x: real, y: real)
    ensures Mul(x, y) == Mul(y, x)
  {}

  lemma MulNeg(x: real, y: real)
    ensures Mul(-x, y) == -Mul(x, y)
  {}

  /** A fraction of a non-negative length lies between 0 and that length. */
  lemma ScaleWithin(u: real, w: real)
    requires 0.0 <= u <= 1.0 && w >= 0.0
    ensures 0.0 <= Mul(u, w) <= w
  {
    MulNonneg(u, w);
    MulMono(w, u, 1.0);
    MulComm(u, w);
  }

  /** Scaling by a positive length keeps a strict order. */
  lemma ScaleStrictMono(y: real, z: real, w: real)
    requires y < z && w > 0.0
    ensures Mul(y, w) < Mul(z, w)
  {
    assert w * (z - y) > 0.0;
    assert w * (z - y) == w * z - w * y;
  }

  /** A proper fraction a / b of a positive length h lies strictly inside it. */
  lemma ProperPart(h: real, a: real, b: real)
    requires 0.0 < a < b && h > 0.0
    ensures 0.0 < Mul(h, a) / b < h
  {
    assert Mul(h, a) < Mul(h, b) by {
      MulComm(h, a);
      MulComm(h, b);
      ScaleStrictMono(a, b, h);
    }
    assert Mul(h, a) > 0.0 by {
      ScaleStrictMono(0.0, a, h);
      MulComm(h, a);
    }
  }

  lemma MulNonnegInt(a: int, m: int)
    requires a >= 0 && m >= 0
    ensures a * m >= 0
  {}

  lemma MulAtLeast(a: int, m: int)
    requires a >= 1 && m > 0
    ensures a * m >= m
  {
    assert a * m == (a - 1) * m + m;
    MulNonnegInt(a - 1, m);
  }

  /** Euclidean division is unique: x == q * m + r with 0 <= r < m fixes r. */
  lemma ModUnique(x: int, m: int, q: int, r: int)
    requires m > 0 && 0 <= r < m && x == q * m + r
    ensures x % m == r
  {
    var q', r' := x / m, x % m;
    assert x == q' * m + r';
    if q' < q {
      assert (q - q') * m == r' - r by { assert q * m - q' * m == (q - q') * m; }
      MulAtLeast(q - q', m);
    } else if q' > q {
      assert (q' - q) * m == r - r' by { assert q' * m - q * m == (q' - q) * m; }
      MulAtLeast(q' - q, m);
    }
  }
}
