/** The part of Python's `math` module that the instance generator uses:
    `sqrt`, `cos`, `sin` and `pi`. Real square roots and trigonometry cannot be
    computed in Dafny, so the library is a value whose functions are constrained
    only by the facts the proofs rely on (see `Sound`). */
module RealMath {

  /** `math.pi`, as the double-precision literal Python prints. */
  const Pi: real := 3.141592653589793

  /** An implementation of `math.sqrt`, `math.cos` and `math.sin`. */
  datatype Math = Math(sqrt: real -> real, cos: real -> real, sin: real -> real)

  /** What every exact real implementation satisfies: `sqrt` is the non-negative
      square root on non-negative arguments, and `cos`/`sin` satisfy the
      Pythagorean identity. */
  ghost predicate Sound(m: Math) {
    && (forall z :: 0.0 <= z ==> 0.0 <= m.sqrt(z) && m.sqrt(z) * m.sqrt(z) == z)
    && (forall t :: m.cos(t) * m.cos(t) + m.sin(t) * m.sin(t) == 1.0)
  }

  lemma MulNonNegative(a: real, b: real)
    ensures 0.0 <= a && 0.0 <= b ==> 0.0 <= a * b
  {
  }

  lemma MulPositive(a: real, b: real)
    ensures 0.0 < a && 0.0 < b ==> 0.0 < a * b
  {
  }

  lemma SquareNonNegative(a: real)
    ensures 0.0 <= a * a
  {
    MulNonNegative(a, a);
    MulNonNegative(-a, -a);
  }

  /** Squaring preserves and reflects the order of non-negative reals. */
  lemma SquareMonotone(a: real, b: real)
    requires 0.0 <= a && 0.0 <= b
    ensures a <= b <==> a * a <= b * b
  {
    if a <= b {
      MulNonNegative(a, b - a);
      MulNonNegative(b, b - a);
    } else {
      MulPositive(a, a - b);
      MulNonNegative(b, a - b);
    }
  }

  /** A point (x, y) at polar radius `radius * q`, with `q * q == u <= 1`,
      lies in the disk of radius `|radius|`, whatever its angle. */
  lemma PolarNormBound(radius: real, q: real, u: real, c: real, s: real, x: real, y: real)
    ensures (0.0 <= u <= 1.0 && q * q == u && c * c + s * s == 1.0
             && x == radius * q * c && y == radius * q * s) ==>
            x * x + y * y <= radius * radius
  {
    var rho := radius * q;
    assert (rho * c) * (rho * c) + (rho * s) * (rho * s) == rho * rho * (c * c + s * s);
    assert rho * rho == radius * radius * (q * q);
    MulNonNegative(radius * radius, 1.0 - u);
    SquareNonNegative(radius);
  }
}
