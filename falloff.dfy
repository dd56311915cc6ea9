/**
 * The push impulse: linear falloff from full strength at the muzzle to zero at
 * MaxPushDistance.
 */
module Falloff {

  const MaxPushDistance: real := 200.0
  const PushForce: real := 1000.0

  /** Math.Clamp for lo <= hi. */
  function Clamp(v: real, lo: real, hi: real): (r: real)
    requires lo <= hi
    ensures lo <= r <= hi
    ensures lo <= v <= hi ==> r == v
    ensures v < lo ==> r == lo
    ensures v > hi ==> r == hi
  {
    if v < lo then lo else if v > hi then hi else v
  }

  /** The falloff factor 1 − clamp(distance / MaxPushDistance, 0, 1). */
  function PushScale(distance: real): (r: real)
    ensures 0.0 <= r <= 1.0
    ensures distance < MaxPushDistance ==> 0.0 < r
    ensures distance <= 0.0 ==> r == 1.0
    ensures distance >= MaxPushDistance ==> r == 0.0
  {
    1.0 - Clamp(distance / MaxPushDistance, 0.0, 1.0)
  }

  /**
   * The scale of the push impulse applied to a body of the given mass: at most
   * mass · PushForce, and zero from MaxPushDistance on.
   */
  function PushMagnitude(mass: real, distance: real): (r: real)
  {
    mass * (PushForce * PushScale(distance))
  }

  /**
   * A body of non-negative mass is pushed by at most mass · PushForce; a body
   * of positive mass inside the range is pushed; none is pushed from
   * MaxPushDistance on.
   */
  lemma PushBounds(mass: real, distance: real)
    ensures 0.0 <= mass ==> 0.0 <= PushMagnitude(mass, distance) <= mass * PushForce
    ensures 0.0 < mass && distance < MaxPushDistance ==> 0.0 < PushMagnitude(mass, distance)
    ensures distance >= MaxPushDistance ==> PushMagnitude(mass, distance) == 0.0
  {
    var k := PushScale(distance);
    if 0.0 <= mass {
      ScaleByNonNegative(mass, PushForce * k, PushForce);
      ScaleByNonNegative(mass, 0.0, PushForce * k);
    }
  }

  /** Inside the push range the falloff is linear in the distance. */
  lemma PushIsLinear(mass: real, distance: real)
    requires 0.0 <= distance <= MaxPushDistance
    ensures PushMagnitude(mass, distance) == mass * PushForce * (1.0 - distance / MaxPushDistance)
  {
  }

  /** At half the maximum distance the push is exactly half the push at distance 0. */
  lemma PushHalfAtHalfDistance(mass: real)
    ensures PushMagnitude(mass, MaxPushDistance / 2.0) * 2.0 == PushMagnitude(mass, 0.0)
    ensures PushMagnitude(mass, 0.0) == mass * PushForce
  {
    assert PushScale(MaxPushDistance / 2.0) == 0.5;
  }

  /** A farther body is never pushed harder than a nearer one of the same mass. */
  lemma PushMonotone(mass: real, near: real, far: real)
    requires 0.0 <= mass
    requires near <= far
    ensures PushMagnitude(mass, far) <= PushMagnitude(mass, near)
  {
    var a, b := PushScale(near), PushScale(far);
    ScaleMonotone(near, far);
    ScaleByNonNegative(mass, PushForce * b, PushForce * a);
  }

  /** The falloff factor does not grow with the distance. */
  lemma ScaleMonotone(near: real, far: real)
    requires near <= far
    ensures PushScale(far) <= PushScale(near)
  {
    assert near / MaxPushDistance <= far / MaxPushDistance;
  }

  lemma ScaleByNonNegative(m: real, x: real, y: real)
    requires 0.0 <= m && x <= y
    ensures m * x <= m * y
  {
  }
}
