/**
 * hmat.h: a rigid pose, a rotation quaternion with a translation, and its
 * inverse, composition and relative pose.
 *
 * A pose from frame a to frame b carries a point p of frame a to
 * `Apply(h, p)`: rotated by `Quaternion_transformVector` with `quat`, then
 * shifted by `pos`. That map is the meaning the lemmas below state the
 * three operations against.
 */
module Pose {
  import opened MathLib
  import opened Vector
  import opened Quat
  import opened DirectionCosine

  datatype Hmat = Hmat(pos: Vector3, quat: Quaternion)

  /** Hmat_create: stores both arguments unchanged. */
  function Create(quat: Quaternion, pos: Vector3): (h: Hmat)
    ensures h.pos == pos && h.quat == quat
  {
    Hmat(pos, quat)
  }

  /** The pose that changes nothing: no rotation and no shift. */
  function IdentityPose(): Hmat {
    Hmat(Zero, Identity())
  }

  /** The point `p` carried by the pose `h`. */
  function Apply(h: Hmat, p: Vector3): Vector3 {
    Add(QuaternionTransformVector(h.quat, p), h.pos)
  }

  /**
   * Hmat_inverse: the inverse rotation, and the position rotated by it and
   * negated. Quaternion_inverse normalises, so a zero rotation is excluded.
   */
  function Inverse(m: Libm, h: Hmat): (r: Hmat)
    requires SqrtLaw(m) && NormSq(h.quat) != 0.0
    ensures IsUnit(r.quat)
    ensures IsUnit(h.quat) ==> r.quat == Conjugate(h.quat)
  {
    var inv := Quat.Inverse(m, h.quat);
    Hmat(Multiply(-1.0, QuaternionTransformVector(inv, h.pos)), inv)
  }

  /**
   * Hmat_composite(h_a2b, h_b2c): the pose from a to c, first h_a2b and
   * then h_b2c.
   */
  function Composite(m: Libm, h_a2b: Hmat, h_b2c: Hmat): (h_a2c: Hmat)
    requires SqrtLaw(m) && NormSq(h_a2b.quat) != 0.0 && NormSq(h_b2c.quat) != 0.0
    ensures IsUnit(h_a2c.quat)
    ensures IsUnit(h_a2b.quat) && IsUnit(h_b2c.quat) ==> h_a2c.quat == Hamilton(h_a2b.quat, h_b2c.quat)
  {
    Hmat(
      Add(QuaternionTransformVector(h_b2c.quat, h_a2b.pos), h_b2c.pos),
      Quat.Composite(m, h_a2b.quat, h_b2c.quat))
  }

  /** Hmat_relative(h_i2c, h_i2a): the pose from a to c, through the inverse of h_i2a. */
  function Relative(m: Libm, h_i2c: Hmat, h_i2a: Hmat): (h_a2c: Hmat)
    requires SqrtLaw(m) && NormSq(h_i2c.quat) != 0.0 && NormSq(h_i2a.quat) != 0.0
    ensures IsUnit(h_a2c.quat)
    ensures IsUnit(h_i2c.quat) && IsUnit(h_i2a.quat) ==> h_a2c.quat == Hamilton(Conjugate(h_i2a.quat), h_i2c.quat)
  {
    Composite(m, Inverse(m, h_i2a), h_i2c)
  }

  // ----- What the operations mean for points -----

  /** A composite pose carries a point as its two parts do, one after the other. */
  lemma ApplyComposite(m: Libm, h_a2b: Hmat, h_b2c: Hmat, p: Vector3)
    requires SqrtLaw(m) && IsUnit(h_a2b.quat) && IsUnit(h_b2c.quat)
    ensures Apply(Composite(m, h_a2b, h_b2c), p) == Apply(h_b2c, Apply(h_a2b, p))
  {
    var ra := QuaternionTransformVector(h_a2b.quat, p);
    TransformComposes(m, h_a2b.quat, h_b2c.quat, p);
    TransformLinear(FromQuaternion(h_b2c.quat), 0.0, ra, h_a2b.pos);
    AddAssociative(QuaternionTransformVector(h_b2c.quat, ra),
      QuaternionTransformVector(h_b2c.quat, h_a2b.pos), h_b2c.pos);
  }

  /** The inverse pose carries every point back, whichever of the two comes first. */
  lemma ApplyInverse(m: Libm, h: Hmat, p: Vector3)
    requires SqrtLaw(m) && IsUnit(h.quat)
    ensures Apply(Inverse(m, h), Apply(h, p)) == p
    ensures Apply(h, Apply(Inverse(m, h), p)) == p
  {
    InverseUndoes(m, h, p);
    InverseIsUndone(m, h, p);
  }

  lemma InverseUndoes(m: Libm, h: Hmat, p: Vector3)
    requires SqrtLaw(m) && IsUnit(h.quat)
    ensures Apply(Inverse(m, h), Apply(h, p)) == p
  {
    var inv := Quat.Inverse(m, h.quat);
    var back := QuaternionTransformVector(inv, h.pos);
    var rp := QuaternionTransformVector(h.quat, p);
    TransformLinear(FromQuaternion(inv), 0.0, rp, h.pos);
    TransformInverse(m, h.quat, p);
    AddAssociative(p, back, Multiply(-1.0, back));
    AddNegation(back);
  }

  lemma InverseIsUndone(m: Libm, h: Hmat, p: Vector3)
    requires SqrtLaw(m) && IsUnit(h.quat)
    ensures Apply(h, Apply(Inverse(m, h), p)) == p
  {
    var inv := Quat.Inverse(m, h.quat);
    var back := QuaternionTransformVector(inv, h.pos);
    var rp := QuaternionTransformVector(inv, p);
    var d := FromQuaternion(h.quat);
    TransformLinear(d, -1.0, rp, Multiply(-1.0, back));
    TransformLinear(d, -1.0, rp, back);
    TransformInverse(m, h.quat, p);
    TransformInverse(m, h.quat, h.pos);
    AddAssociative(p, Multiply(-1.0, h.pos), h.pos);
    AddNegation(h.pos);
  }

  // ----- Algebraic laws of the three operations -----

  /** The identity pose is neutral on both sides of a composite. */
  lemma CompositeIdentity(m: Libm, h: Hmat)
    requires SqrtLaw(m) && IsUnit(h.quat)
    ensures Composite(m, h, IdentityPose()) == h
    ensures Composite(m, IdentityPose(), h) == h
  {
    Quat.CompositeIdentity(m, h.quat);
  }

  /** Composing poses is associative. */
  lemma CompositeAssociative(m: Libm, a: Hmat, b: Hmat, c: Hmat)
    requires SqrtLaw(m) && IsUnit(a.quat) && IsUnit(b.quat) && IsUnit(c.quat)
    ensures Composite(m, Composite(m, a, b), c) == Composite(m, a, Composite(m, b, c))
  {
    Quat.CompositeAssociative(m, a.quat, b.quat, c.quat);
    var rb := QuaternionTransformVector(b.quat, a.pos);
    TransformComposes(m, b.quat, c.quat, a.pos);
    TransformLinear(FromQuaternion(c.quat), 0.0, rb, b.pos);
    AddAssociative(QuaternionTransformVector(c.quat, rb), QuaternionTransformVector(c.quat, b.pos), c.pos);
  }

  /** A pose composed with its inverse, in either order, is the identity pose. */
  lemma CompositeInverse(m: Libm, h: Hmat)
    requires SqrtLaw(m) && IsUnit(h.quat)
    ensures Composite(m, h, Inverse(m, h)) == IdentityPose()
    ensures Composite(m, Inverse(m, h), h) == IdentityPose()
  {
    var inv := Quat.Inverse(m, h.quat);
    var back := QuaternionTransformVector(inv, h.pos);
    Quat.CompositeInverse(m, h.quat);
    AddNegation(back);
    TransformLinear(FromQuaternion(h.quat), -1.0, back, back);
    TransformInverse(m, h.quat, h.pos);
    AddNegation(h.pos);
  }

  /** Inverting twice restores the pose. */
  lemma InverseInvolution(m: Libm, h: Hmat)
    requires SqrtLaw(m) && IsUnit(h.quat)
    ensures Inverse(m, Inverse(m, h)) == h
  {
    var inv := Quat.Inverse(m, h.quat);
    var back := QuaternionTransformVector(inv, h.pos);
    Quat.InverseInvolution(m, h.quat);
    TransformLinear(FromQuaternion(h.quat), -1.0, back, back);
    TransformInverse(m, h.quat, h.pos);
    NegateTwice(h.pos);
  }

  /** The pose of a frame relative to itself is the identity pose. */
  lemma RelativeToSelf(m: Libm, h: Hmat)
    requires SqrtLaw(m) && IsUnit(h.quat)
    ensures Relative(m, h, h) == IdentityPose()
  {
    CompositeInverse(m, h);
  }

  /** Following h_i2a by the relative pose from a to c reaches c: it is h_i2c. */
  lemma RelativeCompletes(m: Libm, h_i2c: Hmat, h_i2a: Hmat)
    requires SqrtLaw(m) && IsUnit(h_i2c.quat) && IsUnit(h_i2a.quat)
    ensures Composite(m, h_i2a, Relative(m, h_i2c, h_i2a)) == h_i2c
  {
    var inv := Inverse(m, h_i2a);
    CompositeAssociative(m, h_i2a, inv, h_i2c);
    CompositeInverse(m, h_i2a);
    CompositeIdentity(m, h_i2c);
  }

  /** The relative pose carries a's image of a point to c's image of it. */
  lemma ApplyRelative(m: Libm, h_i2c: Hmat, h_i2a: Hmat, p: Vector3)
    requires SqrtLaw(m) && IsUnit(h_i2c.quat) && IsUnit(h_i2a.quat)
    ensures Apply(Relative(m, h_i2c, h_i2a), Apply(h_i2a, p)) == Apply(h_i2c, p)
  {
    var inv := Inverse(m, h_i2a);
    ApplyComposite(m, inv, h_i2c, Apply(h_i2a, p));
    InverseUndoes(m, h_i2a, p);
  }

  /**
   * The relative pose must come second: composed in the other order it does
   * not in general reach h_i2c. With h_i2a a unit shift along x and h_i2c a
   * half turn about z, the reversed composite lands at (2, 0, 0), not at
   * the origin.
   */
  lemma RelativeFirstMissesTarget(m: Libm)
    requires SqrtLaw(m)
    ensures var h_i2a, h_i2c := Hmat(Vector3(1.0, 0.0, 0.0), Identity()), Hmat(Zero, HalfTurnAboutZ());
            Composite(m, Relative(m, h_i2c, h_i2a), h_i2a).pos == Vector3(2.0, 0.0, 0.0)
            && Composite(m, Relative(m, h_i2c, h_i2a), h_i2a) != h_i2c
  {
    InverseOfShift(m);
    RelativeOfHalfTurn(m);
    ReversedComposite(m);
  }

  lemma InverseOfShift(m: Libm)
    requires SqrtLaw(m)
    ensures Inverse(m, Hmat(Vector3(1.0, 0.0, 0.0), Identity())) == Hmat(Vector3(-1.0, 0.0, 0.0), Identity())
  {
    InverseOfTranslation(m, Hmat(Vector3(1.0, 0.0, 0.0), Identity()));
    NegatedX();
  }

  /** A pure translation is inverted by the opposite translation. */
  lemma InverseOfTranslation(m: Libm, h: Hmat)
    requires SqrtLaw(m) && h.quat == Identity()
    ensures Inverse(m, h) == Hmat(Multiply(-1.0, h.pos), Identity())
  {
    InverseOfTranslationRotation(m, h);
    InverseOfTranslationShift(m, h);
  }

  lemma InverseOfTranslationRotation(m: Libm, h: Hmat)
    requires SqrtLaw(m) && h.quat == Identity()
    ensures Inverse(m, h).quat == Identity()
  {
  }

  lemma InverseOfTranslationShift(m: Libm, h: Hmat)
    requires SqrtLaw(m) && h.quat == Identity()
    ensures Inverse(m, h).pos == Multiply(-1.0, h.pos)
  {
    InverseOfIdentity(m, h.quat);
  }

  lemma InverseOfIdentity(m: Libm, q: Quaternion)
    requires SqrtLaw(m) && q == Identity()
    ensures Quat.Inverse(m, q) == Identity()
  {
  }

  lemma RelativeOfHalfTurn(m: Libm)
    requires SqrtLaw(m)
    ensures Composite(m, Hmat(Vector3(-1.0, 0.0, 0.0), Identity()), Hmat(Zero, HalfTurnAboutZ()))
         == Hmat(Vector3(1.0, 0.0, 0.0), HalfTurnAboutZ())
  {
    var q := Quat.Composite(m, Identity(), HalfTurnAboutZ());
    assert q == Hamilton(Identity(), HalfTurnAboutZ());
    HalfTurnReversesX();
  }

  lemma NegatedX()
    ensures Multiply(-1.0, Vector3(1.0, 0.0, 0.0)) == Vector3(-1.0, 0.0, 0.0)
  {
  }

  lemma ReversedComposite(m: Libm)
    requires SqrtLaw(m)
    ensures Composite(m, Hmat(Vector3(1.0, 0.0, 0.0), HalfTurnAboutZ()), Hmat(Vector3(1.0, 0.0, 0.0), Identity()))
         == Hmat(Vector3(2.0, 0.0, 0.0), HalfTurnAboutZ())
  {
  }

  /** The rotation by π about z, (0, 0, 1, 0). */
  function HalfTurnAboutZ(): (q: Quaternion)
    ensures IsUnit(q)
  {
    Quaternion(0.0, 0.0, 1.0, 0.0)
  }

  /** The half turn about z sends −x to x. */
  lemma HalfTurnReversesX()
    ensures QuaternionTransformVector(HalfTurnAboutZ(), Vector3(-1.0, 0.0, 0.0)) == Vector3(1.0, 0.0, 0.0)
  {
    var d := FromQuaternion(HalfTurnAboutZ());
    assert d.e00 == -1.0 && d.e01 == 0.0 && d.e02 == 0.0;
    assert d.e10 == 0.0 && d.e20 == 0.0;
  }

}
