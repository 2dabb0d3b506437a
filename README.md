# Rotation and pose kernel, modelled in Dafny

This project models a small C kernel for 3-D rotations and rigid poses. The
kernel has five headers:

- `vector3.h`: free vectors with component-wise scaling and addition.
- `euler_angles.h`: an angle triple tagged with its rotation sequence (ZYX
  or XYZ) and its unit (degrees or radians), plus the two unit conversions.
- `quaternion.h`: normalisation, the Hamilton product (`Quaternion_composite`),
  the inverse, and the conversions between Euler angles and quaternions in
  both sequences.
- `dcm.h`: the direction cosine matrix of a quaternion, the way back by
  pivot selection, and the rotation of vectors.
- `hmat.h`: a pose (rotation quaternion plus translation) with inverse,
  composition and relative pose.

Every C function is pure, so each one becomes a Dafny `function` over
`datatype` values. Each Dafny module matches one header: `Vector`, `Euler`,
`Quat`, `DirectionCosine` and `Pose`. A sixth module, `MathLib`, stands for
`<math.h>`.

Each `double` is modelled as a real number. The `<math.h>` routines (`sqrt`,
`sin`, `cos`, `atan2`, `asin`) are not part of this model. They are fields of
a `Libm` value passed to every operation that calls them. Only three facts
about them are assumed, each as a predicate that a lemma requires when it
needs it:

- `SqrtLaw`: `sqrt` of a non-negative number is its non-negative root.
- `TrigAtZero`: `sin 0 = 0` and `cos 0 = 1`.
- `Pythagorean`: `sin t² + cos t² = 1`. Only the lemmas that combine the
  Euler formulas into unit quaternions use it.

`M_PI` is the constant `3.141592653589793`. This is the value of the
fallback macro at euler_angles.h:4-6.

The main results:

- **Normalisation.** The composite and inverse are unit quaternions. On unit
  inputs they are the exact Hamilton product and the exact conjugate. For
  unit quaternions, composition is associative, the identity is neutral, and
  inversion is an involution.
- **Matrix layout.** `Quaternion2Dcm` writes the transposed layout. For a
  unit quaternion q it rotates v to the vector part of q* ⊗ v ⊗ q, and it
  preserves lengths. For every q it sends the identity to the identity
  matrix and the conjugate to the transpose.
- **Composition order.** Composing unit quaternions rotates vectors as
  "first q1, then q2".
- **Pivot selection.** In `Dcm2Quaternion` the four candidates sum to
  exactly 1. The guard chain is exhaustive and takes the first dominant
  candidate in the order w, x, y, z. The pivot is at least 1/4, so no
  division is by zero.
- **Matrix round trip.** `Dcm2Quaternion(Quaternion2Dcm(q))` is q or −q for
  every unit quaternion. The sign is that of the pivot component.
- **Pitch clamp.** Both quaternion-to-Euler conversions clamp pitch. For a
  unit quaternion the `asin` argument always lies in [−1, 1]. The gimbal-lock
  poses that reach ±π/2 are characterised in both directions.
- **Poses.** A pose carries a point p to `rotate(quat, p) + pos`; the
  operations are stated against that map, for poses with unit rotations.
  The composite of two poses carries points as its two parts do, one after
  the other. The inverse carries them back. The relative pose of a frame to itself is the identity, and
  `composite(h_i2a, relative(h_i2c, h_i2a)) == h_i2c`.

Behaviour kept as the code has it:

- **Unit-conversion quirk.** `EulerAngles_radians` on an input already in
  radians keeps the numbers and relabels them as degrees. `EulerAngles_degrees`
  does the mirror image. The tag is meant to always match the scale of the
  numbers, but the code does not keep that invariant, and the model follows
  the code: `ToRadiansRelabels`, `ToDegreesRelabels`, `ToRadiansNotIdempotent`.
- **Relative-pose law.** The law that holds for the code's operand order is
  `composite(h_i2a, relative(h_i2c, h_i2a)) == h_i2c` (`RelativeCompletes`).
  With the operands the other way round, `composite(relative(h_i2c, h_i2a), h_i2a)`
  applies h_i2a after a pose that already ends in frame c, so it is not h_i2c
  in general: `RelativeFirstMissesTarget` gives a pair of poses where it is not.

## Model

| member | source | states |
|---|---|---|
| Vector.Create | vector3.h:20-29 | the three components are the three arguments |
| Vector.MultiplyComponents | vector3.h:38-47 | each component is multiplied by the scalar, independently of the others |
| Vector.Multiply | vector3.h:38-47 | scaling by 1 returns the vector unchanged, and the result is zero exactly when the scalar or the vector is |
| Vector.NegateTwice | vector3.h:42-44 | multiplying by −1 twice restores the vector |
| Vector.AddCommutative | vector3.h:56-65 | addition is commutative |
| Vector.AddAssociative | vector3.h:56-65 | addition is associative |
| Vector.Add | vector3.h:56-65 | the zero vector is neutral on either side |
| Vector.AddNegation | vector3.h:38-65 | a vector plus its multiple by −1 is zero, on either side |
| Vector.MultiplyDistributes | vector3.h:38-65 | scaling distributes over addition |
| Euler.Create | euler_angles.h:38-49 | all five fields are stored unchanged |
| Euler.ToRadians | euler_angles.h:57-73 | order kept and unit tag flipped; a degrees input is scaled by π/180, a radians input keeps its numbers |
| Euler.ToDegrees | euler_angles.h:81-97 | order kept and unit tag flipped; a radians input is scaled by 180/π, a degrees input keeps its numbers |
| Euler.ToRadiansRelabels | euler_angles.h:68-70 | on a radians input the result is the input relabelled as degrees |
| Euler.ToDegreesRelabels | euler_angles.h:92-94 | on a degrees input the result is the input relabelled as radians |
| Euler.ToRadiansNotIdempotent | euler_angles.h:63-70 | converting twice never equals converting once, because the tag flips every time |
| Euler.DegreesRoundTrip | euler_angles.h:57-97 | a degrees input converted to radians and back is the input |
| Euler.ConversionsAreMutualInverses | euler_angles.h:57-97 | the two conversions undo each other on every input, relabelling path included |
| MathLib.Abs | quaternion.h:143 | `fabs`: the result is non-negative and is the argument or its negation |
| MathLib.CopySign | quaternion.h:144 | the result has the magnitude of the first argument and the sign of the second |
| Quat.NormSqZero | quaternion.h:22-28 | the squared norm is zero only for the zero quaternion, the one input normalisation excludes |
| Quat.Magnitude | quaternion.h:22 | the magnitude is non-negative and squares to the squared norm |
| Quat.Normalize | quaternion.h:20-31 | the result is unit, the magnitude times the result is the input, and a unit input is returned unchanged |
| Quat.NormalizeIdempotent | quaternion.h:20-31 | normalising twice is normalising once |
| Quat.Create | quaternion.h:42-52 | the result is the normalised components: unit, and the components themselves when they are already unit |
| Quat.HamiltonNormSq | quaternion.h:65-68 | the product's squared norm is the product of the squared norms |
| Quat.Hamilton | quaternion.h:65-68 | the product formulas of Quaternion_composite, with (0, 0, 0, 1) a two-sided unit |
| Quat.HamiltonConjugate | quaternion.h:65-68 | q times its conjugate, on either side, is its squared norm as a scalar quaternion |
| Quat.ConjugateOfProduct | quaternion.h:65-68 | the conjugate of a product is the reversed product of the conjugates |
| Quat.HamiltonAssociative | quaternion.h:65-68 | the product formulas are associative |
| Quat.Composite | quaternion.h:61-71 | the result is unit, is the Hamilton product divided by its magnitude, and is the exact product on unit inputs |
| Quat.Inverse | quaternion.h:79-90 | the result is unit, is the conjugate divided by its magnitude, and is the exact conjugate on a unit input |
| Quat.Conjugate | quaternion.h:84-87 | negating the vector part keeps the squared norm |
| Quat.ConjugateInvolution | quaternion.h:84-87 | conjugating twice restores the quaternion |
| Quat.CompositeIdentity | quaternion.h:61-71 | the identity is neutral on either side of composite for a unit quaternion |
| Quat.CompositeAssociative | quaternion.h:61-71 | composite is associative on unit quaternions |
| Quat.CompositeInverse | quaternion.h:61-90 | composite of a unit quaternion with its inverse, in either order, is the identity |
| Quat.InverseInvolution | quaternion.h:79-90 | inverting a unit quaternion twice restores it |
| Quat.InverseOfComposite | quaternion.h:61-90 | the inverse of a composite is the composite of the inverses in reverse order |
| Quat.AxisRotationsAreUnit | quaternion.h:106-111 | with exact sine and cosine each half-angle axis rotation is unit |
| Quat.ZYXProduct | quaternion.h:106-116 | the ZYX formulas are the product yaw ⊗ pitch ⊗ roll of the half-angle axis rotations, for any sine and cosine |
| Quat.XYZProduct | quaternion.h:172-182 | the XYZ formulas are the product roll ⊗ pitch ⊗ yaw of the half-angle axis rotations, for any sine and cosine |
| Quat.FromEulerZYX | quaternion.h:102-122 | the result is unit and is the formula quaternion divided by its magnitude |
| Quat.FromEulerXYZ | quaternion.h:168-188 | the result is unit and is the formula quaternion divided by its magnitude |
| Quat.FromEulerZYXComposes | quaternion.h:102-122 | with exact sine and cosine the formula is already unit and the result is exactly yaw ⊗ pitch ⊗ roll |
| Quat.FromEulerXYZComposes | quaternion.h:168-188 | with exact sine and cosine the result is exactly roll ⊗ pitch ⊗ yaw |
| Quat.ZeroAnglesGiveIdentity | quaternion.h:102-188 | zero angles give the identity in both sequences, whatever the tags |
| Quat.YawOnlyIsAboutZ | quaternion.h:102-188 | a yaw-only triple gives the rotation about z by that yaw in both sequences |
| Quat.Pitch | quaternion.h:142-146 | at or beyond +1 pitch is π/2, at or beyond −1 it is −π/2, strictly inside it is asin |
| Quat.ToEulerZYX | quaternion.h:133-156 | the order tag is ZYX and pitch is the clamped asin of 2(wy − zx) |
| Quat.ToEulerXYZ | quaternion.h:199-222 | the order tag is XYZ and pitch is the clamped asin of 2(wy + zx) |
| Quat.ToEulerDoubleCover | quaternion.h:133-222 | q and −q give the same angles in both sequences |
| Quat.SinPitchZYX | quaternion.h:142 | for a unit quaternion the ZYX `asin` argument lies in [−1, 1] |
| Quat.SinPitchXYZ | quaternion.h:208 | for a unit quaternion the XYZ `asin` argument lies in [−1, 1] |
| Quat.SinRollZYX | quaternion.h:137 | for a unit quaternion the first ZYX roll argument lies in [−1, 1] |
| Quat.SinRollXYZ | quaternion.h:203 | for a unit quaternion the first XYZ roll argument lies in [−1, 1] |
| Quat.CosRoll | quaternion.h:138 | the second roll argument is at most 1, and at least −1 for a unit quaternion |
| Quat.SinYawZYX | quaternion.h:149 | for a unit quaternion the first ZYX yaw argument lies in [−1, 1] |
| Quat.SinYawXYZ | quaternion.h:215 | for a unit quaternion the first XYZ yaw argument lies in [−1, 1] |
| Quat.CosYaw | quaternion.h:150 | the second yaw argument is at most 1, and at least −1 for a unit quaternion |
| Quat.GimbalLockZYX | quaternion.h:142-146 | for a unit quaternion the ZYX pitch argument is +1 iff w = y and x = −z, and −1 iff w = −y and x = z; those poses get pitch ±π/2 |
| Quat.GimbalLockXYZ | quaternion.h:208-212 | for a unit quaternion the XYZ pitch argument is +1 iff w = y and x = z, and −1 iff w = −y and x = −z; those poses get pitch ±π/2 |
| DirectionCosine.FromQuaternion | dcm.h:18-45 | the identity quaternion gives exactly the identity matrix |
| DirectionCosine.DcmOfConjugate | dcm.h:32-42 | the matrix of the conjugate is the transpose of the matrix |
| DirectionCosine.DcmOfNeg | dcm.h:22-42 | q and −q have the same matrix |
| DirectionCosine.EulerArgumentsAreEntries | dcm.h:32-42 | the atan2 and asin arguments of both quaternion-to-Euler conversions are entries of this matrix, up to sign |
| DirectionCosine.OffDiagonals | dcm.h:32-42 | the sums and differences of mirrored off-diagonal entries are four times the pairwise component products |
| DirectionCosine.TransformLinear | dcm.h:94-103 | the matrix-vector product is additive and homogeneous in the vector |
| DirectionCosine.TransformVector | dcm.h:94-103 | the identity matrix leaves every vector unchanged, and every matrix sends zero to zero |
| DirectionCosine.QuaternionTransformVector | dcm.h:112-116 | rotating by the identity quaternion leaves every vector unchanged |
| DirectionCosine.TransformIsSandwich | dcm.h:112-116 | for a unit q the rotated vector is the vector part of q* ⊗ v ⊗ q |
| DirectionCosine.TransformComposes | dcm.h:112-116 | rotating by composite(q1, q2) is rotating by q1 and then by q2 |
| DirectionCosine.TransformInverse | dcm.h:112-116 | rotating by a unit quaternion and by its inverse, in either order, restores the vector |
| DirectionCosine.TransformPreservesLength | dcm.h:112-116 | rotating by a unit quaternion keeps the squared length |
| DirectionCosine.PivotCandidates | dcm.h:57-60 | the four candidates sum to exactly 1 for every matrix |
| DirectionCosine.TraceCandidates | dcm.h:57-60 | the candidates built from any three diagonal entries sum to exactly 1 |
| DirectionCosine.SelectPivot | dcm.h:62-82 | the guards are exhaustive; the pivot taken dominates all four candidates and no earlier one in w, x, y, z does |
| DirectionCosine.PivotAtLeastQuarter | dcm.h:62-82 | the pivot candidate is at least 1/4 |
| DirectionCosine.FromPivot | dcm.h:63-81 | the branch puts the root in the pivot's place |
| DirectionCosine.PivotQuaternion | dcm.h:62-82 | the taken branch's pivot component is at least 1/2 and squares to its candidate, so the divisor 4·pivot is at least 2 |
| DirectionCosine.ToQuaternion | dcm.h:53-85 | the result is unit and its pivot component is positive |
| DirectionCosine.CandidatesOfUnit | dcm.h:57-60 | on the matrix of a unit quaternion the candidates are w², x², y², z² |
| DirectionCosine.FromPivotOfMatrix | dcm.h:62-82 | on the matrix of q a branch whose root is the pivot's absolute value gives q with that pivot's sign |
| DirectionCosine.PivotOfUnit | dcm.h:62-82 | on the matrix of a unit q the taken branch gives ±q with the sign of the pivot component |
| DirectionCosine.DcmRoundTrip | dcm.h:53-85 | matrix and back returns a unit q itself if its pivot component is non-negative and −q otherwise |
| Pose.Create | hmat.h:16-24 | both arguments are stored unchanged |
| Pose.Inverse | hmat.h:32-40 | the rotation is unit and is the conjugate for a unit input |
| Pose.Composite | hmat.h:49-56 | the rotation is unit, and on unit rotations it is the exact Hamilton product h_a2b.quat ⊗ h_b2c.quat |
| Pose.Relative | hmat.h:65-69 | the rotation is unit, and on unit rotations it is the exact product conjugate(h_i2a.quat) ⊗ h_i2c.quat |
| Pose.ApplyComposite | hmat.h:53-54 | the composite carries a point as h_a2b and then h_b2c do |
| Pose.ApplyInverse | hmat.h:37-38 | the inverse carries every point back, whichever of the two is applied first |
| Pose.CompositeIdentity | hmat.h:53-54 | the identity pose is neutral on either side for a unit rotation |
| Pose.CompositeAssociative | hmat.h:53-54 | pose composition is associative on unit rotations |
| Pose.CompositeInverse | hmat.h:37-54 | a pose composed with its inverse, in either order, is the identity pose |
| Pose.InverseInvolution | hmat.h:37-38 | inverting a pose twice restores it |
| Pose.InverseOfTranslation | hmat.h:37-38 | a pure translation is inverted by the opposite translation |
| Pose.RelativeToSelf | hmat.h:65-69 | the pose of a frame relative to itself is the identity pose |
| Pose.RelativeCompletes | hmat.h:65-69 | h_i2a followed by relative(h_i2c, h_i2a) is h_i2c |
| Pose.ApplyRelative | hmat.h:65-69 | the relative pose carries a's image of a point to c's image of it |
| Pose.RelativeFirstMissesTarget | hmat.h:65-69 | with the relative pose applied first instead, a unit shift along x for h_i2a and a half turn about z for h_i2c land at position (2, 0, 0), so the result is not h_i2c |

## Left out

- Floating point: rounding, tolerance-based comparison, NaN and infinity are not modelled; every `double` is an exact real.
- The values of `sqrt`, `sin`, `cos`, `atan2` and `asin` beyond the three laws above are left out; these routines are not part of this model. No Euler round trip through `atan2` and `asin` is stated, since it would rest on trigonometric identities.
- Quat.Normalize: a zero quaternion, which the C code divides by zero, is excluded by a precondition instead of yielding NaN. The same precondition carries over to every operation that normalises: `Composite`, `Inverse`, `Create`, the Euler conversions, and the pose operations.
- Quat.ToEulerZYX: the contract states the order tag and the clamped pitch only. Roll and yaw are `atan2` of two matrix entries (`EulerArgumentsAreEntries`), and nothing about `atan2`'s value is assumed.
- Quat.ToEulerXYZ: as for ToEulerZYX.
- The `unit` field of the result of Quaternion2EulerZYX and Quaternion2EulerXYZ is never assigned in C. It is the parameter `unassigned`, and nothing is stated about it.
- EulerZYX2Quaternion and euler_to_quaternion_XYZ read the angles as radians and never consult the order or unit tags. The model does the same; no tag check is added.
- DirectionCosine.ToQuaternion: the fall-through after the four guards of `Dcm2Quaternion`, where C would return an uninitialised quaternion, is unreachable, so it has no model beyond the proof that the guards are exhaustive.
- Pose averaging and axis-angle conversions are not part of these headers.
- Header guards, includes and the `M_PI` fallback macro appear only as the constant π.
- The Dcm struct's `e[3][3]` array is a nine-field datatype; `Entry` gives indexed access for the transpose.
