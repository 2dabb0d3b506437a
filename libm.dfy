/**
 * The parts of the C math library that the kernel calls.
 *
 * The kernel is written over `double` and calls `sqrt`, `sin`, `cos`,
 * `atan2` and `asin` from <math.h>. Their code is outside this model, so
 * they are passed in as a `Libm` value, and the few facts the proofs rely
 * on are stated as predicates that callers must supply.
 */
module MathLib {

  /** The routines of <math.h> the kernel uses, as unknown real functions. */
  datatype Libm = Libm(
    sqrt: real -> real,
    sin: real -> real,
    cos: real -> real,
    atan2: (real, real) -> real,
    asin: real -> real)

  /** `sqrt` returns the non-negative square root of a non-negative argument. */
  ghost predicate SqrtLaw(m: Libm) {
    forall t :: 0.0 <= t ==> 0.0 <= m.sqrt(t) && m.sqrt(t) * m.sqrt(t) == t
  }

  /** `sin 0 == 0` and `cos 0 == 1`. */
  ghost predicate TrigAtZero(m: Libm) {
    m.sin(0.0) == 0.0 && m.cos(0.0) == 1.0
  }

  /** `sin t * sin t + cos t * cos t == 1` for every angle. */
  ghost predicate Pythagorean(m: Libm) {
    forall t :: m.sin(t) * m.sin(t) + m.cos(t) * m.cos(t) == 1.0
  }

  /** M_PI, with the value of the fallback definition in euler_angles.h. */
  const PI: real := 3.141592653589793

  function Abs(t: real): (r: real)
    ensures 0.0 <= r && (r == t || r == -t)
  {
    if t < 0.0 then -t else t
  }

  /**
   * C's `copysign(mag, sgn)`: the magnitude of `mag` with the sign of `sgn`.
   * Reals have no negative zero, so a zero `sgn` counts as positive.
   */
  function CopySign(mag: real, sgn: real): (r: real)
    ensures Abs(r) == Abs(mag)
    ensures 0.0 <= sgn ==> 0.0 <= r
    ensures sgn < 0.0 ==> r <= 0.0
  {
    if sgn < 0.0 then -Abs(mag) else Abs(mag)
  }

  /** The square root of a square is the absolute value. */
  lemma SqrtOfSquare(m: Libm, t: real)
    requires SqrtLaw(m)
    ensures m.sqrt(t * t) == Abs(t)
  {
    var r := m.sqrt(t * t);
    assert 0.0 <= r && r * r == Abs(t) * Abs(t);
    if r < Abs(t) {
      SquareMonotone(r, Abs(t));
    } else if Abs(t) < r {
      SquareMonotone(Abs(t), r);
    }
  }

  lemma SquareMonotone(a: real, b: real)
    requires 0.0 <= a < b
    ensures a * a < b * b
  {
    var d := b - a;
    assert b * b == a * a + 2.0 * a * d + d * d;
    assert d * d > 0.0 && a * d >= 0.0;
  }

  /** A square is non-negative, and zero only for zero. */
  lemma SquareSign(t: real)
    ensures 0.0 <= t * t
    ensures t * t == 0.0 <==> t == 0.0
  {
    if t != 0.0 {
      SquareMonotone(0.0, Abs(t));
      assert Abs(t) * Abs(t) == t * t;
    }
  }

  lemma ProductPositive(a: real, b: real)
    requires 0.0 < a && 0.0 < b
    ensures 0.0 < a * b
  {
  }
}
