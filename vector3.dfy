/** vector3.h: free vectors of R^3 with component-wise arithmetic. */
module Vector {

  datatype Vector3 = Vector3(x: real, y: real, z: real)

  const Zero := Vector3(0.0, 0.0, 0.0)

  /** Vector3_create: a vector whose components are the arguments. */
  function Create(x: real, y: real, z: real): (v: Vector3)
    ensures v.x == x && v.y == y && v.z == z
  {
    Vector3(x, y, z)
  }

  /**
   * Vector3_multiply: `v` scaled by `scalar`. Scaling by 1 changes nothing,
   * and the result is zero exactly when the scalar or the vector is.
   */
  function Multiply(scalar: real, v: Vector3): (r: Vector3)
    ensures scalar == 1.0 ==> r == v
    ensures r == Zero <==> scalar == 0.0 || v == Zero
  {
    ZeroProduct(v.x, scalar); ZeroProduct(v.y, scalar); ZeroProduct(v.z, scalar);
    Vector3(v.x * scalar, v.y * scalar, v.z * scalar)
  }

  lemma ZeroProduct(a: real, b: real)
    ensures a * b == 0.0 <==> a == 0.0 || b == 0.0
  {
    if a != 0.0 && b != 0.0 {
      assert (a * b) / b == a;
    }
  }

  /** Vector3_add: the sum of two vectors, with the zero vector neutral on either side. */
  function Add(v1: Vector3, v2: Vector3): (r: Vector3)
    ensures v2 == Zero ==> r == v1
    ensures v1 == Zero ==> r == v2
  {
    Vector3(v1.x + v2.x, v1.y + v2.y, v1.z + v2.z)
  }

  /** Each component is scaled by the same scalar, independently of the others. */
  lemma MultiplyComponents(s: real, v: Vector3)
    ensures Multiply(s, v).x == s * v.x
    ensures Multiply(s, v).y == s * v.y
    ensures Multiply(s, v).z == s * v.z
  {
  }

  /** Negation, as the kernel writes it (multiplying by -1), is an involution. */
  lemma NegateTwice(v: Vector3)
    ensures Multiply(-1.0, Multiply(-1.0, v)) == v
  {
  }

  /** A vector plus its negation is the zero vector. */
  lemma AddNegation(v: Vector3)
    ensures Add(Multiply(-1.0, v), v) == Zero
    ensures Add(v, Multiply(-1.0, v)) == Zero
  {
  }

  lemma AddCommutative(a: Vector3, b: Vector3)
    ensures Add(a, b) == Add(b, a)
  {
  }

  lemma AddAssociative(a: Vector3, b: Vector3, c: Vector3)
    ensures Add(Add(a, b), c) == Add(a, Add(b, c))
  {
  }

  /** Scaling distributes over addition. */
  lemma MultiplyDistributes(s: real, a: Vector3, b: Vector3)
    ensures Multiply(s, Add(a, b)) == Add(Multiply(s, a), Multiply(s, b))
  {
  }
}
