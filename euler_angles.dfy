/**
 * euler_angles.h: an angle triple tagged with its rotation sequence and
 * its unit, and the two unit conversions.
 *
 * Both conversions toggle the unit tag. The scale changes only when the
 * input is in the other unit; an input already in the target unit keeps
 * its numbers and is relabelled with the opposite unit.
 */
module Euler {
  import opened MathLib

  /** RotationOrder: the sequence the three angles are composed in. */
  datatype RotationOrder = ZYX | XYZ

  /** AngleUnit: the scale of the three stored angles. */
  datatype AngleUnit = Degrees | Radians

  datatype EulerAngles = EulerAngles(x: real, y: real, z: real, order: RotationOrder, unit: AngleUnit)

  const DegToRad: real := PI / 180.0
  const RadToDeg: real := 180.0 / PI

  /** EulerAngles_create: stores all five fields. */
  function Create(x: real, y: real, z: real, order: RotationOrder, unit: AngleUnit): (a: EulerAngles)
    ensures a.x == x && a.y == y && a.z == z
    ensures a.order == order && a.unit == unit
  {
    EulerAngles(x, y, z, order, unit)
  }

  /** EulerAngles_radians. */
  function ToRadians(a: EulerAngles): (r: EulerAngles)
    ensures r.order == a.order
    ensures r.unit != a.unit
    ensures a.unit == Degrees ==> r.x == a.x * DegToRad && r.y == a.y * DegToRad && r.z == a.z * DegToRad
    ensures a.unit == Radians ==> r.x == a.x && r.y == a.y && r.z == a.z
  {
    if a.unit == Degrees then
      a.(x := a.x * DegToRad, y := a.y * DegToRad, z := a.z * DegToRad, unit := Radians)
    else
      a.(unit := Degrees)
  }

  /** EulerAngles_degrees. */
  function ToDegrees(a: EulerAngles): (r: EulerAngles)
    ensures r.order == a.order
    ensures r.unit != a.unit
    ensures a.unit == Radians ==> r.x == a.x * RadToDeg && r.y == a.y * RadToDeg && r.z == a.z * RadToDeg
    ensures a.unit == Degrees ==> r.x == a.x && r.y == a.y && r.z == a.z
  {
    if a.unit == Radians then
      a.(x := a.x * RadToDeg, y := a.y * RadToDeg, z := a.z * RadToDeg, unit := Degrees)
    else
      a.(unit := Radians)
  }

  /** A value already in radians is relabelled as degrees, numbers unchanged. */
  lemma ToRadiansRelabels(a: EulerAngles)
    requires a.unit == Radians
    ensures ToRadians(a) == a.(unit := Degrees)
  {
  }

  /** A value already in degrees is relabelled as radians, numbers unchanged. */
  lemma ToDegreesRelabels(a: EulerAngles)
    requires a.unit == Degrees
    ensures ToDegrees(a) == a.(unit := Radians)
  {
  }

  /** Because every call flips the tag, neither conversion is idempotent. */
  lemma ToRadiansNotIdempotent(a: EulerAngles)
    ensures ToRadians(ToRadians(a)) != ToRadians(a)
  {
  }

  /** Converting degrees to radians and back restores the input. */
  lemma DegreesRoundTrip(a: EulerAngles)
    requires a.unit == Degrees
    ensures ToDegrees(ToRadians(a)) == a
  {
    assert DegToRad * RadToDeg == 1.0;
  }

  /**
   * The two toggles undo each other on every input, also on the
   * relabelling path.
   */
  lemma ConversionsAreMutualInverses(a: EulerAngles)
    ensures ToDegrees(ToRadians(a)) == a
    ensures ToRadians(ToDegrees(a)) == a
  {
    assert DegToRad * RadToDeg == 1.0;
  }
}
