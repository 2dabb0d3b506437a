/**
 * dcm.h: the 3x3 direction cosine matrix of a quaternion, the way back by
 * pivot selection, and the rotation of vectors.
 *
 * Quaternion2Dcm writes the transpose of the usual active rotation matrix:
 * for a unit quaternion q it rotates a vector v to the vector part of
 * q* ⊗ v ⊗ q, where q* is the conjugate.
 */
module DirectionCosine {
  import opened MathLib
  import opened Vector
  import opened Quat

  /** The 3x3 array `e` of the C struct, entry `e[i][j]` as field `eij`. */
  datatype Dcm = Dcm(
    e00: real, e01: real, e02: real,
    e10: real, e11: real, e12: real,
    e20: real, e21: real, e22: real)

  /** `e[i][j]`. */
  function Entry(d: Dcm, i: nat, j: nat): real
    requires i < 3 && j < 3
  {
    if i == 0 then (if j == 0 then d.e00 else if j == 1 then d.e01 else d.e02)
    else if i == 1 then (if j == 0 then d.e10 else if j == 1 then d.e11 else d.e12)
    else (if j == 0 then d.e20 else if j == 1 then d.e21 else d.e22)
  }

  function IdentityDcm(): Dcm {
    Dcm(1.0, 0.0, 0.0,
        0.0, 1.0, 0.0,
        0.0, 0.0, 1.0)
  }

  function Transpose(d: Dcm): (t: Dcm)
    ensures forall i: nat, j: nat :: i < 3 && j < 3 ==> Entry(t, i, j) == Entry(d, j, i)
  {
    Dcm(d.e00, d.e10, d.e20,
        d.e01, d.e11, d.e21,
        d.e02, d.e12, d.e22)
  }

  /** A diagonal entry 1 - 2(a² + b²) of Quaternion2Dcm. */
  function Diagonal(a: real, b: real): real {
    1.0 - 2.0 * (a * a + b * b)
  }

  /** An off-diagonal entry 2(ab + cd). */
  function OffSum(a: real, b: real, c: real, d: real): real {
    2.0 * (a * b + c * d)
  }

  /** An off-diagonal entry 2(ab - cd). */
  function OffDiff(a: real, b: real, c: real, d: real): real {
    2.0 * (a * b - c * d)
  }

  /**
   * Quaternion2Dcm, entry by entry as the C code lays them out (it first
   * stores the nine products xx, yy, zz, xy, xz, yz, wx, wy, wz).
   */
  function FromQuaternion(q: Quaternion): (r: Dcm)
    ensures q == Identity() ==> r == IdentityDcm()
  {
    EntriesAtIdentity();
    Dcm(Diagonal(q.y, q.z), OffSum(q.x, q.y, q.w, q.z), OffDiff(q.x, q.z, q.w, q.y),
        OffDiff(q.x, q.y, q.w, q.z), Diagonal(q.x, q.z), OffSum(q.y, q.z, q.w, q.x),
        OffSum(q.x, q.z, q.w, q.y), OffDiff(q.y, q.z, q.w, q.x), Diagonal(q.x, q.y))
  }

  /** One row (a, b, c) of the matrix times `v`. */
  function Row(a: real, b: real, c: real, v: Vector3): real {
    a * v.x + b * v.y + c * v.z
  }

  /**
   * Dcm_transformVector: the matrix applied to `v`, row by row. The identity
   * matrix leaves every vector alone, and every matrix keeps zero at zero.
   */
  function TransformVector(d: Dcm, v: Vector3): (r: Vector3)
    ensures d == IdentityDcm() ==> r == v
    ensures v == Zero ==> r == Zero
  {
    Vector3(Row(d.e00, d.e01, d.e02, v), Row(d.e10, d.e11, d.e12, v), Row(d.e20, d.e21, d.e22, v))
  }

  /**
   * Quaternion_transformVector: through the matrix of `q`; the identity
   * quaternion leaves every vector unchanged.
   */
  function QuaternionTransformVector(q: Quaternion, v: Vector3): (r: Vector3)
    ensures q == Identity() ==> r == v
  {
    TransformVector(FromQuaternion(q), v)
  }

  // ----- The matrix of a quaternion -----

  lemma EntriesAtIdentity()
    ensures Diagonal(0.0, 0.0) == 1.0
    ensures OffSum(0.0, 0.0, 1.0, 0.0) == 0.0 && OffDiff(0.0, 0.0, 1.0, 0.0) == 0.0
  {
  }

  lemma NegatedDiagonal(a: real, b: real)
    ensures Diagonal(-a, -b) == Diagonal(a, b)
  {
    assert (-a) * (-a) == a * a && (-b) * (-b) == b * b;
  }

  /** Negating a, b and d swaps the two kinds of off-diagonal entry. */
  lemma ConjugatedEntries(a: real, b: real, c: real, d: real)
    ensures OffSum(-a, -b, c, -d) == OffDiff(a, b, c, d)
    ensures OffDiff(-a, -b, c, -d) == OffSum(a, b, c, d)
  {
    assert (-a) * (-b) == a * b && c * (-d) == -(c * d);
  }

  /** Negating all four factors leaves an off-diagonal entry unchanged. */
  lemma NegatedEntries(a: real, b: real, c: real, d: real)
    ensures OffSum(-a, -b, -c, -d) == OffSum(a, b, c, d)
    ensures OffDiff(-a, -b, -c, -d) == OffDiff(a, b, c, d)
  {
    assert (-a) * (-b) == a * b && (-c) * (-d) == c * d;
  }

  /** The matrix of the conjugate (the inverse rotation) is the transpose. */
  lemma DcmOfConjugate(q: Quaternion)
    ensures FromQuaternion(Conjugate(q)) == Transpose(FromQuaternion(q))
  {
    NegatedDiagonal(q.y, q.z); NegatedDiagonal(q.x, q.z); NegatedDiagonal(q.x, q.y);
    ConjugatedEntries(q.x, q.y, q.w, q.z);
    ConjugatedEntries(q.x, q.z, q.w, q.y);
    ConjugatedEntries(q.y, q.z, q.w, q.x);
  }

  /** q and -q have the same matrix. */
  lemma DcmOfNeg(q: Quaternion)
    ensures FromQuaternion(Neg(q)) == FromQuaternion(q)
  {
    NegatedDiagonal(q.y, q.z); NegatedDiagonal(q.x, q.z); NegatedDiagonal(q.x, q.y);
    NegatedEntries(q.x, q.y, q.w, q.z);
    NegatedEntries(q.x, q.z, q.w, q.y);
    NegatedEntries(q.y, q.z, q.w, q.x);
  }

  /**
   * The Euler conversions of quaternion.h read their `atan2` and `asin`
   * arguments off this matrix: ZYX takes roll from (e12, e22), pitch from
   * -e02 and yaw from (e01, e00); XYZ takes roll from (-e21, e22), pitch
   * from e20 and yaw from (-e10, e00).
   */
  lemma EulerArgumentsAreEntries(q: Quaternion)
    ensures SinRollZYX(q) == FromQuaternion(q).e12
    ensures SinPitchZYX(q) == -FromQuaternion(q).e02
    ensures SinYawZYX(q) == FromQuaternion(q).e01
    ensures SinRollXYZ(q) == -FromQuaternion(q).e21
    ensures SinPitchXYZ(q) == FromQuaternion(q).e20
    ensures SinYawXYZ(q) == -FromQuaternion(q).e10
    ensures CosRoll(q) == FromQuaternion(q).e22
    ensures CosYaw(q) == FromQuaternion(q).e00
  {
    RollArgumentForms(q); PitchArgumentForms(q); YawArgumentForms(q);
    EntriesOf(q);
  }

  /** The roll arguments, each written as the entry formula it matches. */
  lemma RollArgumentForms(q: Quaternion)
    ensures SinRollZYX(q) == OffSum(q.y, q.z, q.w, q.x) && SinRollXYZ(q) == -OffDiff(q.y, q.z, q.w, q.x)
    ensures CosRoll(q) == Diagonal(q.x, q.y)
  {
  }

  /** The pitch arguments as entry formulas. */
  lemma PitchArgumentForms(q: Quaternion)
    ensures SinPitchZYX(q) == -OffDiff(q.x, q.z, q.w, q.y) && SinPitchXYZ(q) == OffSum(q.x, q.z, q.w, q.y)
  {
  }

  /** The yaw arguments as entry formulas. */
  lemma YawArgumentForms(q: Quaternion)
    ensures SinYawZYX(q) == OffSum(q.x, q.y, q.w, q.z) && SinYawXYZ(q) == -OffDiff(q.x, q.y, q.w, q.z)
    ensures CosYaw(q) == Diagonal(q.y, q.z)
  {
  }

  /** The nine entries of the matrix of `q`, named. */
  lemma EntriesOf(q: Quaternion)
    ensures FromQuaternion(q) == Dcm(
      Diagonal(q.y, q.z), OffSum(q.x, q.y, q.w, q.z), OffDiff(q.x, q.z, q.w, q.y),
      OffDiff(q.x, q.y, q.w, q.z), Diagonal(q.x, q.z), OffSum(q.y, q.z, q.w, q.x),
      OffSum(q.x, q.z, q.w, q.y), OffDiff(q.y, q.z, q.w, q.x), Diagonal(q.x, q.y))
  {
  }

  // ----- Rotating vectors -----

  /** One row of the matrix-vector product is linear in the vector. */
  lemma RowLinear(a: real, b: real, c: real, u: Vector3, v: Vector3, k: real)
    ensures Row(a, b, c, Add(u, v)) == Row(a, b, c, u) + Row(a, b, c, v)
    ensures Row(a, b, c, Multiply(k, v)) == Row(a, b, c, v) * k
  {
    assert a * (u.x + v.x) == a * u.x + a * v.x && b * (u.y + v.y) == b * u.y + b * v.y && c * (u.z + v.z) == c * u.z + c * v.z;
  }

  /** Dcm_transformVector is linear in the vector. */
  lemma TransformLinear(d: Dcm, k: real, u: Vector3, v: Vector3)
    ensures TransformVector(d, Add(u, v)) == Add(TransformVector(d, u), TransformVector(d, v))
    ensures TransformVector(d, Multiply(k, v)) == Multiply(k, TransformVector(d, v))
  {
    RowLinear(d.e00, d.e01, d.e02, u, v, k);
    RowLinear(d.e10, d.e11, d.e12, u, v, k);
    RowLinear(d.e20, d.e21, d.e22, u, v, k);
  }

  /** The vector `v` as a pure quaternion (v, 0). */
  function Pure(v: Vector3): Quaternion {
    Quaternion(v.x, v.y, v.z, 0.0)
  }

  function VectorPart(q: Quaternion): Vector3 {
    Vector3(q.x, q.y, q.z)
  }

  /** q* ⊗ v ⊗ q: the rotation of `v` that Quaternion2Dcm encodes. */
  function Sandwich(q: Quaternion, v: Vector3): Quaternion {
    Hamilton(Hamilton(Conjugate(q), Pure(v)), q)
  }

  /**
   * The four components of q* ⊗ v ⊗ q as polynomials, over plain reals;
   * the inner product is distributed by hints.
   */
  lemma SandwichPolyX(w: real, x: real, y: real, z: real, vx: real, vy: real, vz: real)
    ensures ProductX(
              ProductW(w, -x, -y, -z, 0.0, vx, vy, vz), ProductX(w, -x, -y, -z, 0.0, vx, vy, vz),
              ProductY(w, -x, -y, -z, 0.0, vx, vy, vz), ProductZ(w, -x, -y, -z, 0.0, vx, vy, vz),
              w, x, y, z)
         == (w * w + x * x - y * y - z * z) * vx + 2.0 * (x * y + w * z) * vy + 2.0 * (x * z - w * y) * vz
  {
    var iw, ix := ProductW(w, -x, -y, -z, 0.0, vx, vy, vz), ProductX(w, -x, -y, -z, 0.0, vx, vy, vz);
    var iy, iz := ProductY(w, -x, -y, -z, 0.0, vx, vy, vz), ProductZ(w, -x, -y, -z, 0.0, vx, vy, vz);
    assert iw == x * vx + y * vy + z * vz;
    assert ix == w * vx - y * vz + z * vy;
    assert iy == w * vy + x * vz - z * vx;
    assert iz == w * vz - x * vy + y * vx;
    assert iw * x == x * x * vx + y * x * vy + z * x * vz;
    assert ix * w == w * w * vx - y * w * vz + z * w * vy;
    assert iy * z == w * z * vy + x * z * vz - z * z * vx;
    assert iz * y == w * y * vz - x * y * vy + y * y * vx;
  }

  lemma SandwichPolyY(w: real, x: real, y: real, z: real, vx: real, vy: real, vz: real)
    ensures ProductY(
              ProductW(w, -x, -y, -z, 0.0, vx, vy, vz), ProductX(w, -x, -y, -z, 0.0, vx, vy, vz),
              ProductY(w, -x, -y, -z, 0.0, vx, vy, vz), ProductZ(w, -x, -y, -z, 0.0, vx, vy, vz),
              w, x, y, z)
         == 2.0 * (x * y - w * z) * vx + (w * w - x * x + y * y - z * z) * vy + 2.0 * (y * z + w * x) * vz
  {
    var iw, ix := ProductW(w, -x, -y, -z, 0.0, vx, vy, vz), ProductX(w, -x, -y, -z, 0.0, vx, vy, vz);
    var iy, iz := ProductY(w, -x, -y, -z, 0.0, vx, vy, vz), ProductZ(w, -x, -y, -z, 0.0, vx, vy, vz);
    assert iw == x * vx + y * vy + z * vz;
    assert ix == w * vx - y * vz + z * vy;
    assert iy == w * vy + x * vz - z * vx;
    assert iz == w * vz - x * vy + y * vx;
    assert iw * y == x * y * vx + y * y * vy + z * y * vz;
    assert ix * z == w * z * vx - y * z * vz + z * z * vy;
    assert iy * w == w * w * vy + x * w * vz - z * w * vx;
    assert iz * x == w * x * vz - x * x * vy + y * x * vx;
  }

  lemma SandwichPolyZ(w: real, x: real, y: real, z: real, vx: real, vy: real, vz: real)
    ensures ProductZ(
              ProductW(w, -x, -y, -z, 0.0, vx, vy, vz), ProductX(w, -x, -y, -z, 0.0, vx, vy, vz),
              ProductY(w, -x, -y, -z, 0.0, vx, vy, vz), ProductZ(w, -x, -y, -z, 0.0, vx, vy, vz),
              w, x, y, z)
         == 2.0 * (x * z + w * y) * vx + 2.0 * (y * z - w * x) * vy + (w * w - x * x - y * y + z * z) * vz
  {
    var iw, ix := ProductW(w, -x, -y, -z, 0.0, vx, vy, vz), ProductX(w, -x, -y, -z, 0.0, vx, vy, vz);
    var iy, iz := ProductY(w, -x, -y, -z, 0.0, vx, vy, vz), ProductZ(w, -x, -y, -z, 0.0, vx, vy, vz);
    assert iw == x * vx + y * vy + z * vz;
    assert ix == w * vx - y * vz + z * vy;
    assert iy == w * vy + x * vz - z * vx;
    assert iz == w * vz - x * vy + y * vx;
    assert iw * z == x * z * vx + y * z * vy + z * z * vz;
    assert ix * y == w * y * vx - y * y * vz + z * y * vy;
    assert iy * x == w * x * vy + x * x * vz - z * x * vx;
    assert iz * w == w * w * vz - x * w * vy + y * w * vx;
  }

  /** The scalar part of q* ⊗ v ⊗ q is zero for every q: the result is a vector. */
  lemma SandwichPolyW(w: real, x: real, y: real, z: real, vx: real, vy: real, vz: real)
    ensures ProductW(
              ProductW(w, -x, -y, -z, 0.0, vx, vy, vz), ProductX(w, -x, -y, -z, 0.0, vx, vy, vz),
              ProductY(w, -x, -y, -z, 0.0, vx, vy, vz), ProductZ(w, -x, -y, -z, 0.0, vx, vy, vz),
              w, x, y, z)
         == 0.0
  {
    var iw, ix := ProductW(w, -x, -y, -z, 0.0, vx, vy, vz), ProductX(w, -x, -y, -z, 0.0, vx, vy, vz);
    var iy, iz := ProductY(w, -x, -y, -z, 0.0, vx, vy, vz), ProductZ(w, -x, -y, -z, 0.0, vx, vy, vz);
    assert iw == x * vx + y * vy + z * vz;
    assert ix == w * vx - y * vz + z * vy;
    assert iy == w * vy + x * vz - z * vx;
    assert iz == w * vz - x * vy + y * vx;
  }

  /** A linear form v ↦ a·vx + b·vy + c·vz is a row with coefficients (a, b, c). */
  lemma RowCoefficients(r: real, a: real, b: real, c: real, a': real, b': real, c': real, vx: real, vy: real, vz: real)
    requires r == a * vx + b * vy + c * vz
    requires a == a' && b == b' && c == c'
    ensures r == Row(a', b', c', Vector3(vx, vy, vz))
  {
  }

  /**
   * For a unit quaternion the three vector components of q* ⊗ v ⊗ q are the
   * rows of Quaternion2Dcm applied to v: on the unit sphere w² + x² - y² - z²
   * and its two companions are the diagonal entries 1 - 2(y² + z²),
   * 1 - 2(x² + z²) and 1 - 2(x² + y²).
   */
  lemma SandwichRowX(w: real, x: real, y: real, z: real, vx: real, vy: real, vz: real)
    requires SumOfSquares(w, x, y, z) == 1.0
    ensures ProductX(
              ProductW(w, -x, -y, -z, 0.0, vx, vy, vz), ProductX(w, -x, -y, -z, 0.0, vx, vy, vz),
              ProductY(w, -x, -y, -z, 0.0, vx, vy, vz), ProductZ(w, -x, -y, -z, 0.0, vx, vy, vz),
              w, x, y, z)
         == Row(Diagonal(y, z), OffSum(x, y, w, z), OffDiff(x, z, w, y), Vector3(vx, vy, vz))
  {
    SandwichPolyX(w, x, y, z, vx, vy, vz);
    RowCoefficients(
      ProductX(
        ProductW(w, -x, -y, -z, 0.0, vx, vy, vz), ProductX(w, -x, -y, -z, 0.0, vx, vy, vz),
        ProductY(w, -x, -y, -z, 0.0, vx, vy, vz), ProductZ(w, -x, -y, -z, 0.0, vx, vy, vz),
        w, x, y, z),
      w * w + x * x - y * y - z * z, 2.0 * (x * y + w * z), 2.0 * (x * z - w * y),
      Diagonal(y, z), OffSum(x, y, w, z), OffDiff(x, z, w, y),
      vx, vy, vz);
  }

  lemma SandwichRowY(w: real, x: real, y: real, z: real, vx: real, vy: real, vz: real)
    requires SumOfSquares(w, x, y, z) == 1.0
    ensures ProductY(
              ProductW(w, -x, -y, -z, 0.0, vx, vy, vz), ProductX(w, -x, -y, -z, 0.0, vx, vy, vz),
              ProductY(w, -x, -y, -z, 0.0, vx, vy, vz), ProductZ(w, -x, -y, -z, 0.0, vx, vy, vz),
              w, x, y, z)
         == Row(OffDiff(x, y, w, z), Diagonal(x, z), OffSum(y, z, w, x), Vector3(vx, vy, vz))
  {
    SandwichPolyY(w, x, y, z, vx, vy, vz);
    RowCoefficients(
      ProductY(
        ProductW(w, -x, -y, -z, 0.0, vx, vy, vz), ProductX(w, -x, -y, -z, 0.0, vx, vy, vz),
        ProductY(w, -x, -y, -z, 0.0, vx, vy, vz), ProductZ(w, -x, -y, -z, 0.0, vx, vy, vz),
        w, x, y, z),
      2.0 * (x * y - w * z), w * w - x * x + y * y - z * z, 2.0 * (y * z + w * x),
      OffDiff(x, y, w, z), Diagonal(x, z), OffSum(y, z, w, x),
      vx, vy, vz);
  }

  lemma SandwichRowZ(w: real, x: real, y: real, z: real, vx: real, vy: real, vz: real)
    requires SumOfSquares(w, x, y, z) == 1.0
    ensures ProductZ(
              ProductW(w, -x, -y, -z, 0.0, vx, vy, vz), ProductX(w, -x, -y, -z, 0.0, vx, vy, vz),
              ProductY(w, -x, -y, -z, 0.0, vx, vy, vz), ProductZ(w, -x, -y, -z, 0.0, vx, vy, vz),
              w, x, y, z)
         == Row(OffSum(x, z, w, y), OffDiff(y, z, w, x), Diagonal(x, y), Vector3(vx, vy, vz))
  {
    SandwichPolyZ(w, x, y, z, vx, vy, vz);
    RowCoefficients(
      ProductZ(
        ProductW(w, -x, -y, -z, 0.0, vx, vy, vz), ProductX(w, -x, -y, -z, 0.0, vx, vy, vz),
        ProductY(w, -x, -y, -z, 0.0, vx, vy, vz), ProductZ(w, -x, -y, -z, 0.0, vx, vy, vz),
        w, x, y, z),
      2.0 * (x * z + w * y), 2.0 * (y * z - w * x), w * w - x * x - y * y + z * z,
      OffSum(x, z, w, y), OffDiff(y, z, w, x), Diagonal(x, y),
      vx, vy, vz);
  }

  /** Every q* ⊗ v ⊗ q is a pure quaternion. */
  lemma SandwichIsPure(q: Quaternion, v: Vector3)
    ensures Sandwich(q, v).w == 0.0
    ensures Pure(VectorPart(Sandwich(q, v))) == Sandwich(q, v)
  {
    SandwichPolyW(q.w, q.x, q.y, q.z, v.x, v.y, v.z);
  }

  /**
   * The transposed convention: for a unit quaternion q the matrix of q
   * maps v to the vector part of q* ⊗ v ⊗ q.
   */
  lemma TransformIsSandwichX(q: Quaternion, v: Vector3)
    requires IsUnit(q)
    ensures QuaternionTransformVector(q, v).x == Sandwich(q, v).x
  {
    SandwichRowX(q.w, q.x, q.y, q.z, v.x, v.y, v.z);
  }

  lemma TransformIsSandwichY(q: Quaternion, v: Vector3)
    requires IsUnit(q)
    ensures QuaternionTransformVector(q, v).y == Sandwich(q, v).y
  {
    SandwichRowY(q.w, q.x, q.y, q.z, v.x, v.y, v.z);
  }

  lemma TransformIsSandwichZ(q: Quaternion, v: Vector3)
    requires IsUnit(q)
    ensures QuaternionTransformVector(q, v).z == Sandwich(q, v).z
  {
    SandwichRowZ(q.w, q.x, q.y, q.z, v.x, v.y, v.z);
  }

  lemma TransformIsSandwich(q: Quaternion, v: Vector3)
    requires IsUnit(q)
    ensures QuaternionTransformVector(q, v) == VectorPart(Sandwich(q, v))
  {
    TransformIsSandwichX(q, v);
    TransformIsSandwichY(q, v);
    TransformIsSandwichZ(q, v);
  }

  /** Sandwiching by b after a is sandwiching by a ⊗ b. */
  lemma SandwichComposes(a: Quaternion, b: Quaternion, v: Vector3)
    ensures Sandwich(b, VectorPart(Sandwich(a, v))) == Sandwich(Hamilton(a, b), v)
  {
    var p := Pure(v);
    var ca, cb := Conjugate(a), Conjugate(b);
    SandwichIsPure(a, v);
    calc {
      Sandwich(b, VectorPart(Sandwich(a, v)));
      Hamilton(Hamilton(cb, Hamilton(Hamilton(ca, p), a)), b);
      { HamiltonAssociative(cb, Hamilton(ca, p), a); }
      Hamilton(Hamilton(Hamilton(cb, Hamilton(ca, p)), a), b);
      { HamiltonAssociative(cb, ca, p); }
      Hamilton(Hamilton(Hamilton(Hamilton(cb, ca), p), a), b);
      { HamiltonAssociative(Hamilton(Hamilton(cb, ca), p), a, b); }
      Hamilton(Hamilton(Hamilton(cb, ca), p), Hamilton(a, b));
      { ConjugateOfProduct(a, b); }
      Sandwich(Hamilton(a, b), v);
    }
  }

  /**
   * Quaternion_composite(q1, q2) rotates vectors as q1 followed by q2, in the
   * convention of Quaternion_transformVector.
   */
  lemma TransformComposes(m: Libm, q1: Quaternion, q2: Quaternion, v: Vector3)
    requires SqrtLaw(m) && IsUnit(q1) && IsUnit(q2)
    ensures QuaternionTransformVector(Composite(m, q1, q2), v)
         == QuaternionTransformVector(q2, QuaternionTransformVector(q1, v))
  {
    HamiltonNormSq(q1, q2);
    TransformIsSandwich(q1, v);
    TransformIsSandwich(q2, QuaternionTransformVector(q1, v));
    TransformIsSandwich(Hamilton(q1, q2), v);
    SandwichComposes(q1, q2, v);
  }

  /** Rotating by a unit quaternion and then by its inverse, either way round, restores the vector. */
  lemma TransformInverse(m: Libm, q: Quaternion, v: Vector3)
    requires SqrtLaw(m) && IsUnit(q)
    ensures QuaternionTransformVector(Inverse(m, q), QuaternionTransformVector(q, v)) == v
    ensures QuaternionTransformVector(q, QuaternionTransformVector(Inverse(m, q), v)) == v
  {
    var inv := Inverse(m, q);
    TransformComposes(m, q, inv, v);
    TransformComposes(m, inv, q, v);
    CompositeInverse(m, q);
  }

  function LengthSq(v: Vector3): real {
    v.x * v.x + v.y * v.y + v.z * v.z
  }

  /** A unit quaternion's matrix preserves lengths. */
  lemma TransformPreservesLength(q: Quaternion, v: Vector3)
    requires IsUnit(q)
    ensures LengthSq(QuaternionTransformVector(q, v)) == LengthSq(v)
  {
    var s := Sandwich(q, v);
    TransformIsSandwich(q, v);
    SandwichIsPure(q, v);
    HamiltonNormSq(Conjugate(q), Pure(v));
    HamiltonNormSq(Hamilton(Conjugate(q), Pure(v)), q);
    assert NormSq(s) == NormSq(Pure(v));
  }

  // ----- Dcm2Quaternion -----

  /** The four components a pivot can be taken from, in tie-break order. */
  datatype Axis = W | X | Y | Z

  function Rank(a: Axis): nat {
    match a
    case W => 0
    case X => 1
    case Y => 2
    case Z => 3
  }

  /** q0sq, q1sq, q2sq, q3sq: the squares of w, x, y, z when the matrix is a rotation. */
  datatype Candidates = Candidates(w: real, x: real, y: real, z: real)

  function Candidate(c: Candidates, a: Axis): real {
    match a
    case W => c.w
    case X => c.x
    case Y => c.y
    case Z => c.z
  }

  function Component(q: Quaternion, a: Axis): real {
    match a
    case W => q.w
    case X => q.x
    case Y => q.y
    case Z => q.z
  }

  /** `a`'s candidate is at least as large as each of the four. */
  predicate Dominates(c: Candidates, a: Axis) {
    Candidate(c, a) >= c.w && Candidate(c, a) >= c.x && Candidate(c, a) >= c.y && Candidate(c, a) >= c.z
  }

  /** The pivot candidates of Dcm2Quaternion, which depend on the diagonal only. */
  function PivotCandidates(d: Dcm): (c: Candidates)
    ensures c.w + c.x + c.y + c.z == 1.0
  {
    TraceCandidates(d.e00, d.e11, d.e22)
  }

  /** q0sq … q3sq from the diagonal t0, t1, t2; they always sum to exactly 1. */
  function TraceCandidates(t0: real, t1: real, t2: real): (c: Candidates)
    ensures c.w + c.x + c.y + c.z == 1.0
  {
    Candidates(
      0.25 * (1.0 + t0 + t1 + t2),
      0.25 * (1.0 + t0 - t1 - t2),
      0.25 * (1.0 - t0 + t1 - t2),
      0.25 * (1.0 - t0 - t1 + t2))
  }

  /**
   * The guard chain of Dcm2Quaternion. Its four guards cover every input,
   * so the trailing branch is unreachable; the pivot taken is the first
   * of w, x, y, z whose candidate is at least all the others.
   */
  function SelectPivot(c: Candidates): (a: Axis)
    ensures Dominates(c, a)
    ensures forall b: Axis :: Rank(b) < Rank(a) ==> !Dominates(c, b)
  {
    if c.w >= c.x && c.w >= c.y && c.w >= c.z then W
    else if c.x >= c.w && c.x >= c.y && c.x >= c.z then X
    else if c.y >= c.w && c.y >= c.x && c.y >= c.z then Y
    else if c.z >= c.w && c.z >= c.x && c.z >= c.y then Z
    else assert false; Z
  }

  /** The largest of four numbers that sum to 1 is at least 1/4. */
  lemma PivotAtLeastQuarter(c: Candidates)
    requires c.w + c.x + c.y + c.z == 1.0
    ensures Candidate(c, SelectPivot(c)) >= 0.25
  {
  }

  /**
   * The quaternion the taken branch of Dcm2Quaternion assigns, before
   * normalisation: the pivot component is the root of its candidate, and
   * the other three are sums or differences of mirrored off-diagonal
   * entries over four times the pivot.
   */
  function PivotQuaternion(m: Libm, d: Dcm): (q: Quaternion)
    requires SqrtLaw(m)
    ensures Component(q, SelectPivot(PivotCandidates(d))) >= 0.5
    ensures Component(q, SelectPivot(PivotCandidates(d))) * Component(q, SelectPivot(PivotCandidates(d)))
         == Candidate(PivotCandidates(d), SelectPivot(PivotCandidates(d)))
  {
    var c := PivotCandidates(d);
    PivotRootAtLeastHalf(m, c);
    FromPivot(d, SelectPivot(c), m.sqrt(Candidate(c, SelectPivot(c))))
  }

  /** The root of the largest candidate is at least 1/2, and squares back to it. */
  lemma PivotRootAtLeastHalf(m: Libm, c: Candidates)
    requires SqrtLaw(m) && c.w + c.x + c.y + c.z == 1.0
    ensures m.sqrt(Candidate(c, SelectPivot(c))) >= 0.5
    ensures m.sqrt(Candidate(c, SelectPivot(c))) * m.sqrt(Candidate(c, SelectPivot(c))) == Candidate(c, SelectPivot(c))
  {
    PivotAtLeastQuarter(c);
    RootAtLeastHalf(m, Candidate(c, SelectPivot(c)));
  }

  /**
   * One branch of Dcm2Quaternion: `root` in the pivot's place, the other
   * three components over 4·root.
   */
  function FromPivot(d: Dcm, a: Axis, root: real): (q: Quaternion)
    requires root >= 0.5
    ensures Component(q, a) == root
  {
    var k := 4.0 * root;
    match a
    case W => Quaternion((d.e12 - d.e21) / k, (d.e20 - d.e02) / k, (d.e01 - d.e10) / k, root)
    case X => Quaternion(root, (d.e01 + d.e10) / k, (d.e20 + d.e02) / k, (d.e12 - d.e21) / k)
    case Y => Quaternion((d.e01 + d.e10) / k, root, (d.e12 + d.e21) / k, (d.e20 - d.e02) / k)
    case Z => Quaternion((d.e20 + d.e02) / k, (d.e12 + d.e21) / k, root, (d.e01 - d.e10) / k)
  }

  lemma RootAtLeastHalf(m: Libm, t: real)
    requires SqrtLaw(m) && t >= 0.25
    ensures m.sqrt(t) >= 0.5
  {
    var r := m.sqrt(t);
    if r < 0.5 {
      SquareMonotone(r, 0.5);
    }
  }

  lemma NormSqAtLeastComponent(q: Quaternion, a: Axis)
    ensures NormSq(q) >= Component(q, a) * Component(q, a)
  {
    SquareSign(q.w); SquareSign(q.x); SquareSign(q.y); SquareSign(q.z);
  }

  /**
   * Dcm2Quaternion: the branch's quaternion normalised. The pivot is at
   * least 1/2 before normalisation, so no division is by zero and the
   * normalisation is always defined.
   */
  function ToQuaternion(m: Libm, d: Dcm): (q: Quaternion)
    requires SqrtLaw(m)
    ensures IsUnit(q)
    ensures Component(q, SelectPivot(PivotCandidates(d))) > 0.0
  {
    var p := PivotQuaternion(m, d);
    var a := SelectPivot(PivotCandidates(d));
    NormSqAtLeastComponent(p, a);
    var r := Normalize(m, p);
    ScaledComponentPositive(Magnitude(m, p), r, a);
    r
  }

  /** If k·r has a positive `a` component and k is non-negative, so does r. */
  lemma ScaledComponentPositive(k: real, r: Quaternion, a: Axis)
    requires 0.0 <= k && Component(Scale(k, r), a) > 0.0
    ensures Component(r, a) > 0.0
  {
  }

  // ----- The round trip through the matrix -----

  /** For a unit quaternion the pivot candidates of its matrix are the squares of its components. */
  lemma CandidatesOfUnit(q: Quaternion)
    requires IsUnit(q)
    ensures PivotCandidates(FromQuaternion(q)) == Candidates(q.w * q.w, q.x * q.x, q.y * q.y, q.z * q.z)
  {
    UnitTrace(q.w, q.x, q.y, q.z);
  }

  lemma UnitTrace(w: real, x: real, y: real, z: real)
    requires SumOfSquares(w, x, y, z) == 1.0
    ensures TraceCandidates(Diagonal(y, z), Diagonal(x, z), Diagonal(x, y)) == Candidates(w * w, x * x, y * y, z * z)
  {
  }

  /** Sums and differences of mirrored off-diagonal entries are four times a product of two components. */
  lemma OffDiagonals(q: Quaternion)
    ensures FromQuaternion(q).e12 - FromQuaternion(q).e21 == 4.0 * (q.w * q.x)
    ensures FromQuaternion(q).e20 - FromQuaternion(q).e02 == 4.0 * (q.w * q.y)
    ensures FromQuaternion(q).e01 - FromQuaternion(q).e10 == 4.0 * (q.w * q.z)
    ensures FromQuaternion(q).e01 + FromQuaternion(q).e10 == 4.0 * (q.x * q.y)
    ensures FromQuaternion(q).e20 + FromQuaternion(q).e02 == 4.0 * (q.x * q.z)
    ensures FromQuaternion(q).e12 + FromQuaternion(q).e21 == 4.0 * (q.y * q.z)
  {
    MirroredEntries(q.y, q.z, q.w, q.x);
    MirroredEntries(q.x, q.z, q.w, q.y);
    MirroredEntries(q.x, q.y, q.w, q.z);
  }

  lemma MirroredEntries(a: real, b: real, c: real, d: real)
    ensures OffSum(a, b, c, d) - OffDiff(a, b, c, d) == 4.0 * (c * d)
    ensures OffSum(a, b, c, d) + OffDiff(a, b, c, d) == 4.0 * (a * b)
  {
  }

  function Sign(t: real): real {
    if t < 0.0 then -1.0 else 1.0
  }

  /** Four times c·o, over four times |c|, is o with the sign of c. */
  lemma QuarterRatio(num: real, c: real, o: real)
    requires c != 0.0 && (num == 4.0 * (c * o) || num == 4.0 * (o * c))
    ensures num / (4.0 * Abs(c)) == Sign(c) * o
  {
    assert num == 4.0 * (c * o);
    if c < 0.0 {
      assert (-o) * (4.0 * -c) == 4.0 * (c * o);
    } else {
      assert o * (4.0 * c) == 4.0 * (c * o);
    }
    DivideExact(num, 4.0 * Abs(c), Sign(c) * o);
  }

  lemma DivideExact(num: real, den: real, r: real)
    requires den != 0.0 && r * den == num
    ensures num / den == r
  {
  }

  /**
   * On the matrix of q, the branch for pivot `a` with root |q_a| yields q
   * multiplied by the sign of q_a.
   */
  lemma FromPivotOfMatrix(q: Quaternion, a: Axis)
    requires Abs(Component(q, a)) >= 0.5
    ensures FromPivot(FromQuaternion(q), a, Abs(Component(q, a))) == Scale(Sign(Component(q, a)), q)
  {
    match a
    case W => FromPivotOfMatrixW(q);
    case X => FromPivotOfMatrixX(q);
    case Y => FromPivotOfMatrixY(q);
    case Z => FromPivotOfMatrixZ(q);
  }

  lemma FromPivotOfMatrixW(q: Quaternion)
    requires Abs(q.w) >= 0.5
    ensures FromPivot(FromQuaternion(q), W, Abs(q.w)) == Scale(Sign(q.w), q)
  {
    var d := FromQuaternion(q);
    OffDiagonals(q);
    QuarterRatio(d.e12 - d.e21, q.w, q.x);
    QuarterRatio(d.e20 - d.e02, q.w, q.y);
    QuarterRatio(d.e01 - d.e10, q.w, q.z);
  }

  lemma FromPivotOfMatrixX(q: Quaternion)
    requires Abs(q.x) >= 0.5
    ensures FromPivot(FromQuaternion(q), X, Abs(q.x)) == Scale(Sign(q.x), q)
  {
    var d := FromQuaternion(q);
    OffDiagonals(q);
    QuarterRatio(d.e12 - d.e21, q.x, q.w);
    QuarterRatio(d.e01 + d.e10, q.x, q.y);
    QuarterRatio(d.e20 + d.e02, q.x, q.z);
  }

  lemma FromPivotOfMatrixY(q: Quaternion)
    requires Abs(q.y) >= 0.5
    ensures FromPivot(FromQuaternion(q), Y, Abs(q.y)) == Scale(Sign(q.y), q)
  {
    var d := FromQuaternion(q);
    OffDiagonals(q);
    QuarterRatio(d.e20 - d.e02, q.y, q.w);
    QuarterRatio(d.e01 + d.e10, q.y, q.x);
    QuarterRatio(d.e12 + d.e21, q.y, q.z);
  }

  lemma FromPivotOfMatrixZ(q: Quaternion)
    requires Abs(q.z) >= 0.5
    ensures FromPivot(FromQuaternion(q), Z, Abs(q.z)) == Scale(Sign(q.z), q)
  {
    var d := FromQuaternion(q);
    OffDiagonals(q);
    QuarterRatio(d.e01 - d.e10, q.z, q.w);
    QuarterRatio(d.e20 + d.e02, q.z, q.x);
    QuarterRatio(d.e12 + d.e21, q.z, q.y);
  }

  lemma CandidateIsSquare(q: Quaternion, a: Axis)
    requires IsUnit(q)
    ensures Candidate(PivotCandidates(FromQuaternion(q)), a) == Component(q, a) * Component(q, a)
  {
    CandidatesOfUnit(q);
    SquareCandidate(q, a);
  }

  lemma SquareCandidate(q: Quaternion, a: Axis)
    ensures Candidate(Candidates(q.w * q.w, q.x * q.x, q.y * q.y, q.z * q.z), a) == Component(q, a) * Component(q, a)
  {
  }

  /** On the matrix of a unit quaternion the taken branch yields ±q, with the sign of its pivot. */
  lemma PivotOfUnit(m: Libm, q: Quaternion)
    requires SqrtLaw(m) && IsUnit(q)
    ensures PivotQuaternion(m, FromQuaternion(q))
         == Scale(Sign(Component(q, SelectPivot(PivotCandidates(FromQuaternion(q))))), q)
  {
    var d := FromQuaternion(q);
    var c := PivotCandidates(d);
    var a := SelectPivot(c);
    PivotRoot(m, q, a);
    PivotRootAtLeastHalf(m, c);
    FromPivotOfMatrix(q, a);
  }

  /** The root Dcm2Quaternion takes for pivot `a` of a unit quaternion's matrix is |q_a|. */
  lemma PivotRoot(m: Libm, q: Quaternion, a: Axis)
    requires SqrtLaw(m) && IsUnit(q)
    ensures m.sqrt(Candidate(PivotCandidates(FromQuaternion(q)), a)) == Abs(Component(q, a))
  {
    SqrtOfSquare(m, Component(q, a));
    RootOfCandidate(m, q, a);
  }

  /**
   * PivotRoot from the one root it needs rather than from SqrtLaw: with the
   * quantified law out of scope the matrix entries stay uninterpreted.
   */
  lemma RootOfCandidate(m: Libm, q: Quaternion, a: Axis)
    requires IsUnit(q) && m.sqrt(Component(q, a) * Component(q, a)) == Abs(Component(q, a))
    ensures m.sqrt(Candidate(PivotCandidates(FromQuaternion(q)), a)) == Abs(Component(q, a))
  {
    CandidateIsSquare(q, a);
  }

  lemma ScaleBySign(t: real, q: Quaternion)
    ensures Scale(Sign(t), q) == (if t < 0.0 then Neg(q) else q)
    ensures IsUnit(q) ==> IsUnit(Scale(Sign(t), q))
  {
    ScaleNormSq(Sign(t), q);
  }

  /**
   * Dcm2Quaternion undoes Quaternion2Dcm up to sign: a unit quaternion comes
   * back as itself when its pivot component is positive and as its negation
   * otherwise; both stand for the same rotation.
   */
  lemma DcmRoundTrip(m: Libm, q: Quaternion)
    requires SqrtLaw(m) && IsUnit(q)
    ensures ToQuaternion(m, FromQuaternion(q))
         == (if Component(q, SelectPivot(PivotCandidates(FromQuaternion(q)))) < 0.0 then Neg(q) else q)
  {
    var a := SelectPivot(PivotCandidates(FromQuaternion(q)));
    PivotOfUnit(m, q);
    ScaleBySign(Component(q, a), q);
  }
}
