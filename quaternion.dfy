/**
 * quaternion.h: quaternions (x, y, z vector part, w scalar part), the
 * normalising constructors, the Hamilton product and inverse, and the
 * Euler-angle conversions.
 *
 * Every constructing or combining operation ends with Normalize, which
 * divides by the magnitude; the source does not guard a zero magnitude,
 * so here that case is excluded by a precondition.
 */
module Quat {
  import opened MathLib
  import opened Euler

  datatype Quaternion = Quaternion(x: real, y: real, z: real, w: real)

  /** The identity rotation (0, 0, 0, 1). */
  function Identity(): (q: Quaternion)
    ensures NormSq(q) == 1.0
  {
    Quaternion(0.0, 0.0, 0.0, 1.0)
  }

  /** w² + x² + y² + z², over plain reals. */
  function SumOfSquares(w: real, x: real, y: real, z: real): (r: real)
    ensures 0.0 <= r
  {
    SquareSign(w); SquareSign(x); SquareSign(y); SquareSign(z);
    w * w + x * x + y * y + z * z
  }

  /** The squared norm x² + y² + z² + w². */
  function NormSq(q: Quaternion): (r: real) {
    SumOfSquares(q.w, q.x, q.y, q.z)
  }

  /** Only the zero quaternion has a zero norm, so only it cannot be normalised. */
  lemma NormSqZero(q: Quaternion)
    ensures NormSq(q) == 0.0 <==> q == Quaternion(0.0, 0.0, 0.0, 0.0)
  {
    SquareSign(q.x); SquareSign(q.y); SquareSign(q.z); SquareSign(q.w);
  }

  predicate IsUnit(q: Quaternion) {
    NormSq(q) == 1.0
  }

  /** All four components multiplied by `k`. */
  function Scale(k: real, q: Quaternion): Quaternion {
    Quaternion(k * q.x, k * q.y, k * q.z, k * q.w)
  }

  /** -q, which stands for the same rotation as q. */
  function Neg(q: Quaternion): Quaternion {
    Quaternion(-q.x, -q.y, -q.z, -q.w)
  }

  /** The conjugate: vector part negated, scalar part kept, so the norm is kept too. */
  function Conjugate(q: Quaternion): (r: Quaternion)
    ensures NormSq(r) == NormSq(q)
  {
    Quaternion(-q.x, -q.y, -q.z, q.w)
  }

  /**
   * The four components of the Hamilton product (aw, ax, ay, az) ⊗ (bw, bx, by, bz),
   * with the formulas of Quaternion_composite, over plain reals.
   */
  function ProductX(aw: real, ax: real, ay: real, az: real, bw: real, bx: real, b_y: real, bz: real): real {
    aw * bx + ax * bw + ay * bz - az * b_y
  }

  function ProductY(aw: real, ax: real, ay: real, az: real, bw: real, bx: real, b_y: real, bz: real): real {
    aw * b_y - ax * bz + ay * bw + az * bx
  }

  function ProductZ(aw: real, ax: real, ay: real, az: real, bw: real, bx: real, b_y: real, bz: real): real {
    aw * bz + ax * b_y - ay * bx + az * bw
  }

  function ProductW(aw: real, ax: real, ay: real, az: real, bw: real, bx: real, b_y: real, bz: real): real {
    aw * bw - ax * bx - ay * b_y - az * bz
  }

  /** The Hamilton product a ⊗ b, with the identity neutral on either side. */
  function Hamilton(a: Quaternion, b: Quaternion): (r: Quaternion)
    ensures b == Identity() ==> r == a
    ensures a == Identity() ==> r == b
  {
    Quaternion(
      ProductX(a.w, a.x, a.y, a.z, b.w, b.x, b.y, b.z),
      ProductY(a.w, a.x, a.y, a.z, b.w, b.x, b.y, b.z),
      ProductZ(a.w, a.x, a.y, a.z, b.w, b.x, b.y, b.z),
      ProductW(a.w, a.x, a.y, a.z, b.w, b.x, b.y, b.z))
  }

  /** The magnitude sqrt(x² + y² + z² + w²) that Quaternion_normalize divides by. */
  function Magnitude(m: Libm, q: Quaternion): (r: real)
    requires SqrtLaw(m)
    ensures 0.0 <= r && r * r == NormSq(q)
  {
    m.sqrt(NormSq(q))
  }

  lemma ScaleNormSq(k: real, q: Quaternion)
    ensures NormSq(Scale(k, q)) == k * k * NormSq(q)
  {
  }

  /**
   * Quaternion_normalize: the unit quaternion that, multiplied back by the
   * magnitude of `q`, gives `q`.
   */
  function Normalize(m: Libm, q: Quaternion): (r: Quaternion)
    requires SqrtLaw(m) && NormSq(q) != 0.0
    ensures IsUnit(r)
    ensures Scale(Magnitude(m, q), r) == q
    ensures IsUnit(q) ==> r == q
  {
    var mag := Magnitude(m, q);
    DivideByMagnitude(q, mag);
    Quaternion(q.x / mag, q.y / mag, q.z / mag, q.w / mag)
  }

  /**
   * Dividing by a positive root of the squared norm gives a unit quaternion
   * that the root scales back to `q`; a unit `q` has root 1 and is kept.
   */
  lemma DivideByMagnitude(q: Quaternion, mag: real)
    requires 0.0 <= mag && mag * mag == NormSq(q) && NormSq(q) != 0.0
    ensures IsUnit(Quaternion(q.x / mag, q.y / mag, q.z / mag, q.w / mag))
    ensures Scale(mag, Quaternion(q.x / mag, q.y / mag, q.z / mag, q.w / mag)) == q
    ensures IsUnit(q) ==> Quaternion(q.x / mag, q.y / mag, q.z / mag, q.w / mag) == q
  {
    var k := 1.0 / mag;
    var r := Quaternion(q.x / mag, q.y / mag, q.z / mag, q.w / mag);
    DivisionIsScale(q, mag);
    assert k * mag == 1.0;
    ScaleNormSq(k, q);
    assert k * k * NormSq(q) == (k * mag) * (k * mag);
    ScaleInverse(mag, k, q);
    if IsUnit(q) {
      UnitRoot(mag);
    }
  }

  lemma DivisionIsScale(q: Quaternion, mag: real)
    requires mag != 0.0
    ensures Quaternion(q.x / mag, q.y / mag, q.z / mag, q.w / mag) == Scale(1.0 / mag, q)
  {
    DivisionIsProduct(q.x, mag);
    DivisionIsProduct(q.y, mag);
    DivisionIsProduct(q.z, mag);
    DivisionIsProduct(q.w, mag);
  }

  lemma DivisionIsProduct(t: real, mag: real)
    requires mag != 0.0
    ensures t / mag == (1.0 / mag) * t
  {
  }

  lemma ScaleInverse(mag: real, k: real, q: Quaternion)
    requires k * mag == 1.0
    ensures Scale(mag, Scale(k, q)) == q
  {
    assert mag * (k * q.x) == (k * mag) * q.x;
    assert mag * (k * q.y) == (k * mag) * q.y;
    assert mag * (k * q.z) == (k * mag) * q.z;
    assert mag * (k * q.w) == (k * mag) * q.w;
  }

  lemma UnitRoot(t: real)
    requires 0.0 <= t && t * t == 1.0
    ensures t == 1.0
  {
    if t < 1.0 {
      SquareMonotone(t, 1.0);
    } else if 1.0 < t {
      SquareMonotone(1.0, t);
    }
  }

  /** Normalising twice is normalising once. */
  lemma NormalizeIdempotent(m: Libm, q: Quaternion)
    requires SqrtLaw(m) && NormSq(q) != 0.0
    ensures Normalize(m, Normalize(m, q)) == Normalize(m, q)
  {
  }

  /** Quaternion_create: the components normalised. */
  function Create(m: Libm, x: real, y: real, z: real, w: real): (q: Quaternion)
    requires SqrtLaw(m) && NormSq(Quaternion(x, y, z, w)) != 0.0
    ensures q == Normalize(m, Quaternion(x, y, z, w))
    ensures IsUnit(q)
    ensures IsUnit(Quaternion(x, y, z, w)) ==> q == Quaternion(x, y, z, w)
  {
    var q := Quaternion(x, y, z, w);
    Normalize(m, q)
  }

  /** Euler's four-square identity, over plain reals. */
  lemma FourSquares(aw: real, ax: real, ay: real, az: real, bw: real, bx: real, b_y: real, bz: real)
    ensures SumOfSquares(
              ProductW(aw, ax, ay, az, bw, bx, b_y, bz), ProductX(aw, ax, ay, az, bw, bx, b_y, bz),
              ProductY(aw, ax, ay, az, bw, bx, b_y, bz), ProductZ(aw, ax, ay, az, bw, bx, b_y, bz))
         == SumOfSquares(aw, ax, ay, az) * SumOfSquares(bw, bx, b_y, bz)
  {
    var pw, px := ProductW(aw, ax, ay, az, bw, bx, b_y, bz), ProductX(aw, ax, ay, az, bw, bx, b_y, bz);
    var py, pz := ProductY(aw, ax, ay, az, bw, bx, b_y, bz), ProductZ(aw, ax, ay, az, bw, bx, b_y, bz);
    assert pw * pw == aw * aw * bw * bw + ax * ax * bx * bx + ay * ay * b_y * b_y + az * az * bz * bz
      - 2.0 * aw * bw * ax * bx - 2.0 * aw * bw * ay * b_y - 2.0 * aw * bw * az * bz
      + 2.0 * ax * bx * ay * b_y + 2.0 * ax * bx * az * bz + 2.0 * ay * b_y * az * bz;
    assert px * px == aw * aw * bx * bx + ax * ax * bw * bw + ay * ay * bz * bz + az * az * b_y * b_y
      + 2.0 * aw * bx * ax * bw + 2.0 * aw * bx * ay * bz - 2.0 * aw * bx * az * b_y
      + 2.0 * ax * bw * ay * bz - 2.0 * ax * bw * az * b_y - 2.0 * ay * bz * az * b_y;
    assert py * py == aw * aw * b_y * b_y + ax * ax * bz * bz + ay * ay * bw * bw + az * az * bx * bx
      - 2.0 * aw * b_y * ax * bz + 2.0 * aw * b_y * ay * bw + 2.0 * aw * b_y * az * bx
      - 2.0 * ax * bz * ay * bw - 2.0 * ax * bz * az * bx + 2.0 * ay * bw * az * bx;
    assert pz * pz == aw * aw * bz * bz + ax * ax * b_y * b_y + ay * ay * bx * bx + az * az * bw * bw
      + 2.0 * aw * bz * ax * b_y - 2.0 * aw * bz * ay * bx + 2.0 * aw * bz * az * bw
      - 2.0 * ax * b_y * ay * bx + 2.0 * ax * b_y * az * bw - 2.0 * ay * bx * az * bw;
  }

  /** The norm is multiplicative, so the product of unit quaternions is unit. */
  lemma HamiltonNormSq(a: Quaternion, b: Quaternion)
    ensures NormSq(Hamilton(a, b)) == NormSq(a) * NormSq(b)
  {
    FourSquares(a.w, a.x, a.y, a.z, b.w, b.x, b.y, b.z);
  }

  /** A quaternion times its conjugate, on either side, is its squared norm. */
  lemma HamiltonConjugate(q: Quaternion)
    ensures Hamilton(q, Conjugate(q)) == Quaternion(0.0, 0.0, 0.0, NormSq(q))
    ensures Hamilton(Conjugate(q), q) == Quaternion(0.0, 0.0, 0.0, NormSq(q))
  {
  }

  /** The conjugate of a product is the product of the conjugates, reversed. */
  lemma ConjugateOfProduct(a: Quaternion, b: Quaternion)
    ensures Conjugate(Hamilton(a, b)) == Hamilton(Conjugate(b), Conjugate(a))
  {
    ReversedProduct(a.w, a.x, a.y, a.z, b.w, b.x, b.y, b.z);
  }

  /** Conjugating both factors and swapping them negates the vector part of the product. */
  lemma ReversedProduct(aw: real, ax: real, ay: real, az: real, bw: real, bx: real, b_y: real, bz: real)
    ensures ProductX(bw, -bx, -b_y, -bz, aw, -ax, -ay, -az) == -ProductX(aw, ax, ay, az, bw, bx, b_y, bz)
    ensures ProductY(bw, -bx, -b_y, -bz, aw, -ax, -ay, -az) == -ProductY(aw, ax, ay, az, bw, bx, b_y, bz)
    ensures ProductZ(bw, -bx, -b_y, -bz, aw, -ax, -ay, -az) == -ProductZ(aw, ax, ay, az, bw, bx, b_y, bz)
    ensures ProductW(bw, -bx, -b_y, -bz, aw, -ax, -ay, -az) == ProductW(aw, ax, ay, az, bw, bx, b_y, bz)
  {
  }

  lemma ConjugateInvolution(q: Quaternion)
    ensures Conjugate(Conjugate(q)) == q
  {
  }

  /**
   * Associativity of the Hamilton product, one component at a time, over
   * plain reals; each triple product is distributed by a hint.
   */
  lemma AssociativeComponentX(
    aw: real, ax: real, ay: real, az: real, bw: real, bx: real, b_y: real, bz: real,
    cw: real, cx: real, cy: real, cz: real)
    ensures ProductX(
              ProductW(aw, ax, ay, az, bw, bx, b_y, bz), ProductX(aw, ax, ay, az, bw, bx, b_y, bz),
              ProductY(aw, ax, ay, az, bw, bx, b_y, bz), ProductZ(aw, ax, ay, az, bw, bx, b_y, bz),
              cw, cx, cy, cz)
         == ProductX(
              aw, ax, ay, az,
              ProductW(bw, bx, b_y, bz, cw, cx, cy, cz), ProductX(bw, bx, b_y, bz, cw, cx, cy, cz),
              ProductY(bw, bx, b_y, bz, cw, cx, cy, cz), ProductZ(bw, bx, b_y, bz, cw, cx, cy, cz))
  {
    var abw, abx := ProductW(aw, ax, ay, az, bw, bx, b_y, bz), ProductX(aw, ax, ay, az, bw, bx, b_y, bz);
    var ab_y, abz := ProductY(aw, ax, ay, az, bw, bx, b_y, bz), ProductZ(aw, ax, ay, az, bw, bx, b_y, bz);
    assert abw * cx == aw * bw * cx - ax * bx * cx - ay * b_y * cx - az * bz * cx;
    assert abx * cw == aw * bx * cw + ax * bw * cw + ay * bz * cw - az * b_y * cw;
    assert ab_y * cz == aw * b_y * cz - ax * bz * cz + ay * bw * cz + az * bx * cz;
    assert abz * cy == aw * bz * cy + ax * b_y * cy - ay * bx * cy + az * bw * cy;
    var bcw, bcx := ProductW(bw, bx, b_y, bz, cw, cx, cy, cz), ProductX(bw, bx, b_y, bz, cw, cx, cy, cz);
    var bc_y, bcz := ProductY(bw, bx, b_y, bz, cw, cx, cy, cz), ProductZ(bw, bx, b_y, bz, cw, cx, cy, cz);
    assert aw * bcx == aw * bw * cx + aw * bx * cw + aw * b_y * cz - aw * bz * cy;
    assert ax * bcw == ax * bw * cw - ax * bx * cx - ax * b_y * cy - ax * bz * cz;
    assert ay * bcz == ay * bw * cz + ay * bx * cy - ay * b_y * cx + ay * bz * cw;
    assert az * bc_y == az * bw * cy - az * bx * cz + az * b_y * cw + az * bz * cx;
  }

  lemma AssociativeComponentY(
    aw: real, ax: real, ay: real, az: real, bw: real, bx: real, b_y: real, bz: real,
    cw: real, cx: real, cy: real, cz: real)
    ensures ProductY(
              ProductW(aw, ax, ay, az, bw, bx, b_y, bz), ProductX(aw, ax, ay, az, bw, bx, b_y, bz),
              ProductY(aw, ax, ay, az, bw, bx, b_y, bz), ProductZ(aw, ax, ay, az, bw, bx, b_y, bz),
              cw, cx, cy, cz)
         == ProductY(
              aw, ax, ay, az,
              ProductW(bw, bx, b_y, bz, cw, cx, cy, cz), ProductX(bw, bx, b_y, bz, cw, cx, cy, cz),
              ProductY(bw, bx, b_y, bz, cw, cx, cy, cz), ProductZ(bw, bx, b_y, bz, cw, cx, cy, cz))
  {
    var abw, abx := ProductW(aw, ax, ay, az, bw, bx, b_y, bz), ProductX(aw, ax, ay, az, bw, bx, b_y, bz);
    var ab_y, abz := ProductY(aw, ax, ay, az, bw, bx, b_y, bz), ProductZ(aw, ax, ay, az, bw, bx, b_y, bz);
    assert abw * cy == aw * bw * cy - ax * bx * cy - ay * b_y * cy - az * bz * cy;
    assert abx * cz == aw * bx * cz + ax * bw * cz + ay * bz * cz - az * b_y * cz;
    assert ab_y * cw == aw * b_y * cw - ax * bz * cw + ay * bw * cw + az * bx * cw;
    assert abz * cx == aw * bz * cx + ax * b_y * cx - ay * bx * cx + az * bw * cx;
    var bcw, bcx := ProductW(bw, bx, b_y, bz, cw, cx, cy, cz), ProductX(bw, bx, b_y, bz, cw, cx, cy, cz);
    var bc_y, bcz := ProductY(bw, bx, b_y, bz, cw, cx, cy, cz), ProductZ(bw, bx, b_y, bz, cw, cx, cy, cz);
    assert aw * bc_y == aw * bw * cy - aw * bx * cz + aw * b_y * cw + aw * bz * cx;
    assert ax * bcz == ax * bw * cz + ax * bx * cy - ax * b_y * cx + ax * bz * cw;
    assert ay * bcw == ay * bw * cw - ay * bx * cx - ay * b_y * cy - ay * bz * cz;
    assert az * bcx == az * bw * cx + az * bx * cw + az * b_y * cz - az * bz * cy;
  }

  lemma AssociativeComponentZ(
    aw: real, ax: real, ay: real, az: real, bw: real, bx: real, b_y: real, bz: real,
    cw: real, cx: real, cy: real, cz: real)
    ensures ProductZ(
              ProductW(aw, ax, ay, az, bw, bx, b_y, bz), ProductX(aw, ax, ay, az, bw, bx, b_y, bz),
              ProductY(aw, ax, ay, az, bw, bx, b_y, bz), ProductZ(aw, ax, ay, az, bw, bx, b_y, bz),
              cw, cx, cy, cz)
         == ProductZ(
              aw, ax, ay, az,
              ProductW(bw, bx, b_y, bz, cw, cx, cy, cz), ProductX(bw, bx, b_y, bz, cw, cx, cy, cz),
              ProductY(bw, bx, b_y, bz, cw, cx, cy, cz), ProductZ(bw, bx, b_y, bz, cw, cx, cy, cz))
  {
    var abw, abx := ProductW(aw, ax, ay, az, bw, bx, b_y, bz), ProductX(aw, ax, ay, az, bw, bx, b_y, bz);
    var ab_y, abz := ProductY(aw, ax, ay, az, bw, bx, b_y, bz), ProductZ(aw, ax, ay, az, bw, bx, b_y, bz);
    assert abw * cz == aw * bw * cz - ax * bx * cz - ay * b_y * cz - az * bz * cz;
    assert abx * cy == aw * bx * cy + ax * bw * cy + ay * bz * cy - az * b_y * cy;
    assert ab_y * cx == aw * b_y * cx - ax * bz * cx + ay * bw * cx + az * bx * cx;
    assert abz * cw == aw * bz * cw + ax * b_y * cw - ay * bx * cw + az * bw * cw;
    var bcw, bcx := ProductW(bw, bx, b_y, bz, cw, cx, cy, cz), ProductX(bw, bx, b_y, bz, cw, cx, cy, cz);
    var bc_y, bcz := ProductY(bw, bx, b_y, bz, cw, cx, cy, cz), ProductZ(bw, bx, b_y, bz, cw, cx, cy, cz);
    assert aw * bcz == aw * bw * cz + aw * bx * cy - aw * b_y * cx + aw * bz * cw;
    assert ax * bc_y == ax * bw * cy - ax * bx * cz + ax * b_y * cw + ax * bz * cx;
    assert ay * bcx == ay * bw * cx + ay * bx * cw + ay * b_y * cz - ay * bz * cy;
    assert az * bcw == az * bw * cw - az * bx * cx - az * b_y * cy - az * bz * cz;
  }

  lemma AssociativeComponentW(
    aw: real, ax: real, ay: real, az: real, bw: real, bx: real, b_y: real, bz: real,
    cw: real, cx: real, cy: real, cz: real)
    ensures ProductW(
              ProductW(aw, ax, ay, az, bw, bx, b_y, bz), ProductX(aw, ax, ay, az, bw, bx, b_y, bz),
              ProductY(aw, ax, ay, az, bw, bx, b_y, bz), ProductZ(aw, ax, ay, az, bw, bx, b_y, bz),
              cw, cx, cy, cz)
         == ProductW(
              aw, ax, ay, az,
              ProductW(bw, bx, b_y, bz, cw, cx, cy, cz), ProductX(bw, bx, b_y, bz, cw, cx, cy, cz),
              ProductY(bw, bx, b_y, bz, cw, cx, cy, cz), ProductZ(bw, bx, b_y, bz, cw, cx, cy, cz))
  {
    var abw, abx := ProductW(aw, ax, ay, az, bw, bx, b_y, bz), ProductX(aw, ax, ay, az, bw, bx, b_y, bz);
    var ab_y, abz := ProductY(aw, ax, ay, az, bw, bx, b_y, bz), ProductZ(aw, ax, ay, az, bw, bx, b_y, bz);
    assert abw * cw == aw * bw * cw - ax * bx * cw - ay * b_y * cw - az * bz * cw;
    assert abx * cx == aw * bx * cx + ax * bw * cx + ay * bz * cx - az * b_y * cx;
    assert ab_y * cy == aw * b_y * cy - ax * bz * cy + ay * bw * cy + az * bx * cy;
    assert abz * cz == aw * bz * cz + ax * b_y * cz - ay * bx * cz + az * bw * cz;
    var bcw, bcx := ProductW(bw, bx, b_y, bz, cw, cx, cy, cz), ProductX(bw, bx, b_y, bz, cw, cx, cy, cz);
    var bc_y, bcz := ProductY(bw, bx, b_y, bz, cw, cx, cy, cz), ProductZ(bw, bx, b_y, bz, cw, cx, cy, cz);
    assert aw * bcw == aw * bw * cw - aw * bx * cx - aw * b_y * cy - aw * bz * cz;
    assert ax * bcx == ax * bw * cx + ax * bx * cw + ax * b_y * cz - ax * bz * cy;
    assert ay * bc_y == ay * bw * cy - ay * bx * cz + ay * b_y * cw + ay * bz * cx;
    assert az * bcz == az * bw * cz + az * bx * cy - az * b_y * cx + az * bz * cw;
  }

  lemma AssociativeX(a: Quaternion, b: Quaternion, c: Quaternion)
    ensures Hamilton(Hamilton(a, b), c).x == Hamilton(a, Hamilton(b, c)).x
  {
    AssociativeComponentX(a.w, a.x, a.y, a.z, b.w, b.x, b.y, b.z, c.w, c.x, c.y, c.z);
  }

  lemma AssociativeY(a: Quaternion, b: Quaternion, c: Quaternion)
    ensures Hamilton(Hamilton(a, b), c).y == Hamilton(a, Hamilton(b, c)).y
  {
    AssociativeComponentY(a.w, a.x, a.y, a.z, b.w, b.x, b.y, b.z, c.w, c.x, c.y, c.z);
  }

  lemma AssociativeZ(a: Quaternion, b: Quaternion, c: Quaternion)
    ensures Hamilton(Hamilton(a, b), c).z == Hamilton(a, Hamilton(b, c)).z
  {
    AssociativeComponentZ(a.w, a.x, a.y, a.z, b.w, b.x, b.y, b.z, c.w, c.x, c.y, c.z);
  }

  lemma AssociativeW(a: Quaternion, b: Quaternion, c: Quaternion)
    ensures Hamilton(Hamilton(a, b), c).w == Hamilton(a, Hamilton(b, c)).w
  {
    AssociativeComponentW(a.w, a.x, a.y, a.z, b.w, b.x, b.y, b.z, c.w, c.x, c.y, c.z);
  }

  lemma HamiltonAssociative(a: Quaternion, b: Quaternion, c: Quaternion)
    ensures Hamilton(Hamilton(a, b), c) == Hamilton(a, Hamilton(b, c))
  {
    AssociativeX(a, b, c);
    AssociativeY(a, b, c);
    AssociativeZ(a, b, c);
    AssociativeW(a, b, c);
  }

  /**
   * Quaternion_composite: the Hamilton product normalised. On unit inputs the
   * product is already unit, so the result is the exact product.
   */
  function Composite(m: Libm, q1: Quaternion, q2: Quaternion): (r: Quaternion)
    requires SqrtLaw(m) && NormSq(q1) != 0.0 && NormSq(q2) != 0.0
    ensures IsUnit(r)
    ensures Scale(Magnitude(m, Hamilton(q1, q2)), r) == Hamilton(q1, q2)
    ensures IsUnit(q1) && IsUnit(q2) ==> r == Hamilton(q1, q2)
  {
    var p := Hamilton(q1, q2);
    HamiltonNormSq(q1, q2);
    ProductPositive(NormSq(q1), NormSq(q2));
    Normalize(m, p)
  }

  /**
   * Quaternion_inverse: the conjugate normalised. On a unit input it is the
   * exact conjugate.
   */
  function Inverse(m: Libm, q: Quaternion): (r: Quaternion)
    requires SqrtLaw(m) && NormSq(q) != 0.0
    ensures IsUnit(r)
    ensures Scale(Magnitude(m, q), r) == Conjugate(q)
    ensures IsUnit(q) ==> r == Conjugate(q)
  {
    ConjugateInvolution(q);
    Normalize(m, Conjugate(q))
  }

  /** The identity is a two-sided unit of Composite on unit quaternions. */
  lemma CompositeIdentity(m: Libm, q: Quaternion)
    requires SqrtLaw(m) && IsUnit(q)
    ensures Composite(m, q, Identity()) == q
    ensures Composite(m, Identity(), q) == q
  {
  }

  lemma CompositeAssociative(m: Libm, a: Quaternion, b: Quaternion, c: Quaternion)
    requires SqrtLaw(m) && IsUnit(a) && IsUnit(b) && IsUnit(c)
    ensures Composite(m, Composite(m, a, b), c) == Composite(m, a, Composite(m, b, c))
  {
    HamiltonAssociative(a, b, c);
  }

  /** A unit quaternion composed with its inverse, on either side, is the identity. */
  lemma CompositeInverse(m: Libm, q: Quaternion)
    requires SqrtLaw(m) && IsUnit(q)
    ensures Composite(m, q, Inverse(m, q)) == Identity()
    ensures Composite(m, Inverse(m, q), q) == Identity()
  {
    HamiltonConjugate(q);
  }

  /** Inverse is an involution on unit quaternions. */
  lemma InverseInvolution(m: Libm, q: Quaternion)
    requires SqrtLaw(m) && IsUnit(q)
    ensures Inverse(m, Inverse(m, q)) == q
  {
    ConjugateInvolution(q);
  }

  /** The inverse of a composite is the composite of the inverses, reversed. */
  lemma InverseOfComposite(m: Libm, a: Quaternion, b: Quaternion)
    requires SqrtLaw(m) && IsUnit(a) && IsUnit(b)
    ensures Inverse(m, Composite(m, a, b)) == Composite(m, Inverse(m, b), Inverse(m, a))
  {
    ConjugateInvolution(a);
    ConjugateInvolution(b);
    ConjugateOfProduct(a, b);
  }

  // ----- Euler angles: quaternion.h lines 102-222 -----

  /** The rotation by `angle` radians about the x axis, as a quaternion. */
  function AboutX(m: Libm, angle: real): Quaternion {
    Quaternion(m.sin(angle * 0.5), 0.0, 0.0, m.cos(angle * 0.5))
  }

  /** The rotation by `angle` radians about the y axis. */
  function AboutY(m: Libm, angle: real): Quaternion {
    Quaternion(0.0, m.sin(angle * 0.5), 0.0, m.cos(angle * 0.5))
  }

  /** The rotation by `angle` radians about the z axis. */
  function AboutZ(m: Libm, angle: real): Quaternion {
    Quaternion(0.0, 0.0, m.sin(angle * 0.5), m.cos(angle * 0.5))
  }

  /** With exact sine and cosine, each axis rotation is a unit quaternion. */
  lemma AxisRotationsAreUnit(m: Libm, angle: real)
    requires Pythagorean(m)
    ensures IsUnit(AboutX(m, angle)) && IsUnit(AboutY(m, angle)) && IsUnit(AboutZ(m, angle))
  {
    var s, c := m.sin(angle * 0.5), m.cos(angle * 0.5);
    assert s * s + c * c == 1.0;
  }

  /**
   * The unnormalised quaternion of EulerZYX2Quaternion, built from the
   * half-angle sines and cosines of roll (x), pitch (y) and yaw (z): the
   * product yaw ⊗ pitch ⊗ roll of the three axis rotations, whatever sine
   * and cosine return.
   */
  function ZYXProduct(m: Libm, a: EulerAngles): (r: Quaternion)
    ensures r == Hamilton(Hamilton(AboutZ(m, a.z), AboutY(m, a.y)), AboutX(m, a.x))
  {
    var cy, sy := m.cos(a.z * 0.5), m.sin(a.z * 0.5);
    var cp, sp := m.cos(a.y * 0.5), m.sin(a.y * 0.5);
    var cr, sr := m.cos(a.x * 0.5), m.sin(a.x * 0.5);
    ZYXComponents(cy, sy, cp, sp, cr, sr);
    Quaternion(
      sr * cp * cy - cr * sp * sy,
      cr * sp * cy + sr * cp * sy,
      cr * cp * sy - sr * sp * cy,
      cr * cp * cy + sr * sp * sy)
  }

  /**
   * The unnormalised quaternion of euler_to_quaternion_XYZ: the product
   * roll ⊗ pitch ⊗ yaw of the three axis rotations.
   */
  function XYZProduct(m: Libm, a: EulerAngles): (r: Quaternion)
    ensures r == Hamilton(Hamilton(AboutX(m, a.x), AboutY(m, a.y)), AboutZ(m, a.z))
  {
    var cy, sy := m.cos(a.z * 0.5), m.sin(a.z * 0.5);
    var cp, sp := m.cos(a.y * 0.5), m.sin(a.y * 0.5);
    var cr, sr := m.cos(a.x * 0.5), m.sin(a.x * 0.5);
    XYZComponents(cy, sy, cp, sp, cr, sr);
    Quaternion(
      sr * cp * cy + cr * sp * sy,
      cr * sp * cy - sr * cp * sy,
      cr * cp * sy + sr * sp * cy,
      cr * cp * cy - sr * sp * sy)
  }

  /**
   * The ZYX formulas, component by component, are the products of the half
   * turns (cy, 0, 0, sy) ⊗ (cp, 0, sp, 0) ⊗ (cr, sr, 0, 0), written as (w, x, y, z).
   */
  lemma ZYXComponents(cy: real, sy: real, cp: real, sp: real, cr: real, sr: real)
    ensures var w, x, y, z :=
              ProductW(cy, 0.0, 0.0, sy, cp, 0.0, sp, 0.0), ProductX(cy, 0.0, 0.0, sy, cp, 0.0, sp, 0.0),
              ProductY(cy, 0.0, 0.0, sy, cp, 0.0, sp, 0.0), ProductZ(cy, 0.0, 0.0, sy, cp, 0.0, sp, 0.0);
            && ProductX(w, x, y, z, cr, sr, 0.0, 0.0) == sr * cp * cy - cr * sp * sy
            && ProductY(w, x, y, z, cr, sr, 0.0, 0.0) == cr * sp * cy + sr * cp * sy
            && ProductZ(w, x, y, z, cr, sr, 0.0, 0.0) == cr * cp * sy - sr * sp * cy
            && ProductW(w, x, y, z, cr, sr, 0.0, 0.0) == cr * cp * cy + sr * sp * sy
  {
  }

  /** The XYZ formulas are the products (cr, sr, 0, 0) ⊗ (cp, 0, sp, 0) ⊗ (cy, 0, 0, sy). */
  lemma XYZComponents(cy: real, sy: real, cp: real, sp: real, cr: real, sr: real)
    ensures var w, x, y, z :=
              ProductW(cr, sr, 0.0, 0.0, cp, 0.0, sp, 0.0), ProductX(cr, sr, 0.0, 0.0, cp, 0.0, sp, 0.0),
              ProductY(cr, sr, 0.0, 0.0, cp, 0.0, sp, 0.0), ProductZ(cr, sr, 0.0, 0.0, cp, 0.0, sp, 0.0);
            && ProductX(w, x, y, z, cy, 0.0, 0.0, sy) == sr * cp * cy + cr * sp * sy
            && ProductY(w, x, y, z, cy, 0.0, 0.0, sy) == cr * sp * cy - sr * cp * sy
            && ProductZ(w, x, y, z, cy, 0.0, 0.0, sy) == cr * cp * sy + sr * sp * cy
            && ProductW(w, x, y, z, cy, 0.0, 0.0, sy) == cr * cp * cy - sr * sp * sy
  {
  }

  /** With exact sine and cosine the product of unit axis rotations is unit. */
  lemma AxisCompositionIsUnit(p: Quaternion, q: Quaternion, r: Quaternion)
    requires IsUnit(p) && IsUnit(q) && IsUnit(r)
    ensures IsUnit(Hamilton(Hamilton(p, q), r))
  {
    HamiltonNormSq(p, q);
    HamiltonNormSq(Hamilton(p, q), r);
  }

  /**
   * EulerZYX2Quaternion: the normalised ZYX formula. The angles are read as
   * radians whatever the unit tag says, and the order tag is not consulted.
   */
  function FromEulerZYX(m: Libm, a: EulerAngles): (q: Quaternion)
    requires SqrtLaw(m) && NormSq(ZYXProduct(m, a)) != 0.0
    ensures IsUnit(q)
    ensures Scale(Magnitude(m, ZYXProduct(m, a)), q) == ZYXProduct(m, a)
  {
    Normalize(m, ZYXProduct(m, a))
  }

  /** euler_to_quaternion_XYZ: the normalised XYZ formula, tags ignored likewise. */
  function FromEulerXYZ(m: Libm, a: EulerAngles): (q: Quaternion)
    requires SqrtLaw(m) && NormSq(XYZProduct(m, a)) != 0.0
    ensures IsUnit(q)
    ensures Scale(Magnitude(m, XYZProduct(m, a)), q) == XYZProduct(m, a)
  {
    Normalize(m, XYZProduct(m, a))
  }

  /**
   * With exact sine and cosine the formula is already unit, so the
   * conversion is exactly yaw ⊗ pitch ⊗ roll.
   */
  lemma FromEulerZYXComposes(m: Libm, a: EulerAngles)
    requires SqrtLaw(m) && Pythagorean(m)
    ensures NormSq(ZYXProduct(m, a)) == 1.0
    ensures FromEulerZYX(m, a) == Hamilton(Hamilton(AboutZ(m, a.z), AboutY(m, a.y)), AboutX(m, a.x))
  {
    AxisRotationsAreUnit(m, a.x); AxisRotationsAreUnit(m, a.y); AxisRotationsAreUnit(m, a.z);
    AxisCompositionIsUnit(AboutZ(m, a.z), AboutY(m, a.y), AboutX(m, a.x));
  }

  /** With exact sine and cosine the XYZ conversion is exactly roll ⊗ pitch ⊗ yaw. */
  lemma FromEulerXYZComposes(m: Libm, a: EulerAngles)
    requires SqrtLaw(m) && Pythagorean(m)
    ensures NormSq(XYZProduct(m, a)) == 1.0
    ensures FromEulerXYZ(m, a) == Hamilton(Hamilton(AboutX(m, a.x), AboutY(m, a.y)), AboutZ(m, a.z))
  {
    AxisRotationsAreUnit(m, a.x); AxisRotationsAreUnit(m, a.y); AxisRotationsAreUnit(m, a.z);
    AxisCompositionIsUnit(AboutX(m, a.x), AboutY(m, a.y), AboutZ(m, a.z));
  }

  /** All-zero angles give the identity rotation, in either order. */
  lemma ZeroAnglesGiveIdentity(m: Libm, order: RotationOrder, unit: AngleUnit)
    requires SqrtLaw(m) && TrigAtZero(m)
    ensures NormSq(ZYXProduct(m, EulerAngles(0.0, 0.0, 0.0, order, unit))) == 1.0
    ensures NormSq(XYZProduct(m, EulerAngles(0.0, 0.0, 0.0, order, unit))) == 1.0
    ensures FromEulerZYX(m, EulerAngles(0.0, 0.0, 0.0, order, unit)) == Identity()
    ensures FromEulerXYZ(m, EulerAngles(0.0, 0.0, 0.0, order, unit)) == Identity()
  {
    assert 0.0 * 0.5 == 0.0;
  }

  /**
   * Angles with only a yaw component give the rotation about z by that yaw,
   * in either order, when sine and cosine are exact.
   */
  lemma YawOnlyIsAboutZ(m: Libm, yaw: real, order: RotationOrder, unit: AngleUnit)
    requires SqrtLaw(m) && TrigAtZero(m) && Pythagorean(m)
    ensures FromEulerZYX(m, EulerAngles(0.0, 0.0, yaw, order, unit)) == AboutZ(m, yaw)
    ensures FromEulerXYZ(m, EulerAngles(0.0, 0.0, yaw, order, unit)) == AboutZ(m, yaw)
  {
    var a := EulerAngles(0.0, 0.0, yaw, order, unit);
    assert 0.0 * 0.5 == 0.0;
    FromEulerZYXComposes(m, a);
    FromEulerXYZComposes(m, a);
    assert AboutX(m, 0.0) == Identity() && AboutY(m, 0.0) == Identity();
  }

  /**
   * The pitch branch of both quaternion-to-Euler conversions: `asin` strictly
   * inside (-1, 1), and ±π/2 (copysign of π/2) at or beyond either end.
   */
  function Pitch(m: Libm, sinp: real): (r: real)
    ensures 1.0 <= sinp ==> r == PI / 2.0
    ensures sinp <= -1.0 ==> r == -(PI / 2.0)
    ensures -1.0 < sinp < 1.0 ==> r == m.asin(sinp)
  {
    if Abs(sinp) >= 1.0 then CopySign(PI / 2.0, sinp) else m.asin(sinp)
  }

  /**
   * Twice the sum of two products of the components of a unit 4-vector lies
   * in [-1, 1]: 1 ∓ 2(ab + cd) is (a ∓ b)² + (c ∓ d)².
   */
  lemma TwoProductsBounded(a: real, b: real, c: real, d: real)
    ensures a * a + b * b + c * c + d * d == 1.0 ==> -1.0 <= 2.0 * (a * b + c * d) <= 1.0
  {
    if a * a + b * b + c * c + d * d == 1.0 {
      assert 1.0 - 2.0 * (a * b + c * d) == (a - b) * (a - b) + (c - d) * (c - d);
      assert 1.0 + 2.0 * (a * b + c * d) == (a + b) * (a + b) + (c + d) * (c + d);
      SquareSign(a - b); SquareSign(c - d); SquareSign(a + b); SquareSign(c + d);
    }
  }

  /** The `asin` argument of Quaternion2EulerZYX. */
  function SinPitchZYX(q: Quaternion): (r: real)
    ensures IsUnit(q) ==> -1.0 <= r <= 1.0
  {
    TwoProductsBounded(q.w, q.y, q.z, -q.x);
    2.0 * (q.w * q.y - q.z * q.x)
  }

  /** The `asin` argument of Quaternion2EulerXYZ. */
  function SinPitchXYZ(q: Quaternion): (r: real)
    ensures IsUnit(q) ==> -1.0 <= r <= 1.0
  {
    TwoProductsBounded(q.w, q.y, q.z, q.x);
    2.0 * (q.w * q.y + q.z * q.x)
  }

  /** The first `atan2` argument for roll in Quaternion2EulerZYX. */
  function SinRollZYX(q: Quaternion): (r: real)
    ensures IsUnit(q) ==> -1.0 <= r <= 1.0
  {
    TwoProductsBounded(q.w, q.x, q.y, q.z);
    2.0 * (q.w * q.x + q.y * q.z)
  }

  /** The first `atan2` argument for roll in Quaternion2EulerXYZ. */
  function SinRollXYZ(q: Quaternion): (r: real)
    ensures IsUnit(q) ==> -1.0 <= r <= 1.0
  {
    TwoProductsBounded(q.w, q.x, q.y, -q.z);
    2.0 * (q.w * q.x - q.y * q.z)
  }

  /** The second `atan2` argument for roll, the same in both orders. */
  function CosRoll(q: Quaternion): (r: real)
    ensures r <= 1.0
    ensures IsUnit(q) ==> -1.0 <= r
  {
    SquareSign(q.x); SquareSign(q.y); SquareSign(q.z); SquareSign(q.w);
    1.0 - 2.0 * (q.x * q.x + q.y * q.y)
  }

  /** The first `atan2` argument for yaw in Quaternion2EulerZYX. */
  function SinYawZYX(q: Quaternion): (r: real)
    ensures IsUnit(q) ==> -1.0 <= r <= 1.0
  {
    TwoProductsBounded(q.w, q.z, q.x, q.y);
    2.0 * (q.w * q.z + q.x * q.y)
  }

  /** The first `atan2` argument for yaw in Quaternion2EulerXYZ. */
  function SinYawXYZ(q: Quaternion): (r: real)
    ensures IsUnit(q) ==> -1.0 <= r <= 1.0
  {
    TwoProductsBounded(q.w, q.z, q.x, -q.y);
    2.0 * (q.w * q.z - q.x * q.y)
  }

  /** The second `atan2` argument for yaw, the same in both orders. */
  function CosYaw(q: Quaternion): (r: real)
    ensures r <= 1.0
    ensures IsUnit(q) ==> -1.0 <= r
  {
    SquareSign(q.x); SquareSign(q.y); SquareSign(q.z); SquareSign(q.w);
    1.0 - 2.0 * (q.y * q.y + q.z * q.z)
  }

  /**
   * Quaternion2EulerZYX: roll and yaw from `atan2`, pitch clamped. The C
   * code never assigns the `unit` field of its result; whatever it holds is
   * the parameter `unassigned`.
   */
  function ToEulerZYX(m: Libm, q: Quaternion, unassigned: AngleUnit): (a: EulerAngles)
    ensures a.order == ZYX
    ensures a.y == Pitch(m, SinPitchZYX(q))
  {
    EulerAngles(
      m.atan2(SinRollZYX(q), CosRoll(q)),
      Pitch(m, SinPitchZYX(q)),
      m.atan2(SinYawZYX(q), CosYaw(q)),
      ZYX, unassigned)
  }

  /** Quaternion2EulerXYZ, with the XYZ sign pattern; `unit` as above. */
  function ToEulerXYZ(m: Libm, q: Quaternion, unassigned: AngleUnit): (a: EulerAngles)
    ensures a.order == XYZ
    ensures a.y == Pitch(m, SinPitchXYZ(q))
  {
    EulerAngles(
      m.atan2(SinRollXYZ(q), CosRoll(q)),
      Pitch(m, SinPitchXYZ(q)),
      m.atan2(SinYawXYZ(q), CosYaw(q)),
      XYZ, unassigned)
  }

  /** q and -q are the same rotation, and both conversions give them the same angles. */
  lemma ToEulerDoubleCover(m: Libm, q: Quaternion, unassigned: AngleUnit)
    ensures ToEulerZYX(m, Neg(q), unassigned) == ToEulerZYX(m, q, unassigned)
    ensures ToEulerXYZ(m, Neg(q), unassigned) == ToEulerXYZ(m, q, unassigned)
  {
    RollArgumentsOfNegation(q);
    PitchArgumentsOfNegation(q);
    YawArgumentsOfNegation(q);
  }

  lemma RollArgumentsOfNegation(q: Quaternion)
    ensures SinRollZYX(Neg(q)) == SinRollZYX(q) && SinRollXYZ(Neg(q)) == SinRollXYZ(q) && CosRoll(Neg(q)) == CosRoll(q)
  {
    var n := Neg(q);
    assert n.w * n.x == q.w * q.x && n.y * n.z == q.y * q.z;
    assert n.x * n.x == q.x * q.x && n.y * n.y == q.y * q.y;
  }

  lemma PitchArgumentsOfNegation(q: Quaternion)
    ensures SinPitchZYX(Neg(q)) == SinPitchZYX(q) && SinPitchXYZ(Neg(q)) == SinPitchXYZ(q)
  {
    var n := Neg(q);
    assert n.w * n.y == q.w * q.y && n.z * n.x == q.z * q.x;
  }

  lemma YawArgumentsOfNegation(q: Quaternion)
    ensures SinYawZYX(Neg(q)) == SinYawZYX(q) && SinYawXYZ(Neg(q)) == SinYawXYZ(q) && CosYaw(Neg(q)) == CosYaw(q)
  {
    var n := Neg(q);
    assert n.w * n.z == q.w * q.z && n.x * n.y == q.x * q.y;
    assert n.y * n.y == q.y * q.y && n.z * n.z == q.z * q.z;
  }

  /** The distance of each pitch argument from ±1, as a sum of two squares. */
  lemma PitchMargins(q: Quaternion)
    ensures NormSq(q) - SinPitchZYX(q) == (q.w - q.y) * (q.w - q.y) + (q.x + q.z) * (q.x + q.z)
    ensures NormSq(q) + SinPitchZYX(q) == (q.w + q.y) * (q.w + q.y) + (q.x - q.z) * (q.x - q.z)
    ensures NormSq(q) - SinPitchXYZ(q) == (q.w - q.y) * (q.w - q.y) + (q.x - q.z) * (q.x - q.z)
    ensures NormSq(q) + SinPitchXYZ(q) == (q.w + q.y) * (q.w + q.y) + (q.x + q.z) * (q.x + q.z)
  {
  }

  /**
   * Gimbal lock in ZYX order: a unit quaternion reaches pitch +π/2 exactly
   * when w == y and x == -z, and -π/2 exactly when w == -y and x == z.
   */
  lemma GimbalLockZYX(m: Libm, q: Quaternion, unassigned: AngleUnit)
    requires IsUnit(q)
    ensures SinPitchZYX(q) == 1.0 <==> q.w == q.y && q.x == -q.z
    ensures SinPitchZYX(q) == -1.0 <==> q.w == -q.y && q.x == q.z
    ensures q.w == q.y && q.x == -q.z ==> ToEulerZYX(m, q, unassigned).y == PI / 2.0
    ensures q.w == -q.y && q.x == q.z ==> ToEulerZYX(m, q, unassigned).y == -(PI / 2.0)
  {
    PitchMargins(q);
    SquareSign(q.w - q.y); SquareSign(q.w + q.y); SquareSign(q.x - q.z); SquareSign(q.x + q.z);
  }

  /**
   * Gimbal lock in XYZ order: pitch +π/2 exactly when w == y and x == z,
   * and -π/2 exactly when w == -y and x == -z.
   */
  lemma GimbalLockXYZ(m: Libm, q: Quaternion, unassigned: AngleUnit)
    requires IsUnit(q)
    ensures SinPitchXYZ(q) == 1.0 <==> q.w == q.y && q.x == q.z
    ensures SinPitchXYZ(q) == -1.0 <==> q.w == -q.y && q.x == -q.z
    ensures q.w == q.y && q.x == q.z ==> ToEulerXYZ(m, q, unassigned).y == PI / 2.0
    ensures q.w == -q.y && q.x == -q.z ==> ToEulerXYZ(m, q, unassigned).y == -(PI / 2.0)
  {
    PitchMargins(q);
    SquareSign(q.w - q.y); SquareSign(q.w + q.y); SquareSign(q.x - q.z); SquareSign(q.x + q.z);
  }
}
