/** The generator's pure helpers: the strict range test and the two builders
    of yaw-only quaternions `[qx, qy, qz, qw]`. */
module Orientation {
  import opened Floats

  /** `inrange(s, lo, hi)`: both ends are excluded, so nothing is in an
      empty or one-point range. */
  predicate InRange(s: real, lo: real, hi: real)
    ensures InRange(s, lo, hi) ==> lo < hi && s != lo && s != hi
  {
    lo < s < hi
  }

  lemma InRangeExcludesEnds(s: real, lo: real, hi: real)
    ensures InRange(s, lo, hi) ==> lo < hi
    ensures !InRange(lo, lo, hi) && !InRange(hi, lo, hi)
    ensures InRange(s, lo, hi) <==> lo < s && s < hi
  {
  }

  /** A rotation about the vertical axis only: four components, with the
      x and z components exactly zero. */
  predicate YawOnly(q: seq<Float>) {
    |q| == 4 && q[0] == Num(0.0) && q[2] == Num(0.0)
  }

  /** All four components are exactly zero: SciPy's `Rotation.from_quat`
      refuses such a quaternion with `ValueError`. */
  predicate ZeroNorm(q: seq<Float>) {
    |q| == 4 && forall i :: 0 <= i < 4 ==> q[i] == Num(0.0)
  }

  /** Sine and cosine never vanish at the same angle, as `sin^2 + cos^2 = 1`
      guarantees for NumPy's functions. */
  ghost predicate SinCosNeverBothZero(m: Maths) {
    forall x {:trigger m.sin(x), m.cos(x)} :: m.sin(x) != 0.0 || m.cos(x) != 0.0
  }

  /** The quaternion for a rotation by `theta` about the vertical axis:
      `qy = sin(theta / 2)`, `qw = cos(theta / 2)`. */
  function YawQuaternion(m: Maths, theta: Float): (q: seq<Float>)
    ensures YawOnly(q)
    ensures q[1].Num? <==> theta.Num?
    ensures q[3].Num? <==> theta.Num?
  {
    [Num(0.0), Apply1(m.sin, Half(theta)), Num(0.0), Apply1(m.cos, Half(theta))]
  }

  /** `random_quaternion_xz_plane`, with the uniform draw on [0, 2*pi) given as `theta`. */
  function RandomQuaternionXZ(m: Maths, theta: real): (q: seq<Float>)
    ensures YawOnly(q)
    ensures q[1] == Num(m.sin(theta / 2.0)) && q[3] == Num(m.cos(theta / 2.0))
  {
    YawQuaternion(m, Num(theta))
  }

  /** `calculate_orientation_xz_plane`: the yaw `arctan2(dz, dx)` from `position`
      towards `goal`, as a quaternion. A NaN in either point's x or z makes
      `qy` and `qw` NaN. */
  function CalculateOrientationXZ(m: Maths, position: Vec3, goal: Vec3): (q: seq<Float>)
    ensures YawOnly(q)
    ensures q[1].Num? <==> position.x.Num? && position.z.Num? && goal.x.Num? && goal.z.Num?
    ensures q[3].Num? <==> q[1].Num?
  {
    var dx := Sub(goal.x, position.x);
    var dz := Sub(goal.z, position.z);
    YawQuaternion(m, Apply2(m.atan2, dz, dx))
  }

  /** With real sine and cosine, neither builder produces the zero quaternion. */
  lemma YawQuaternionNotZeroNorm(m: Maths, theta: Float)
    requires SinCosNeverBothZero(m)
    ensures !ZeroNorm(YawQuaternion(m, theta))
  {
    var q := YawQuaternion(m, theta);
    if theta.Num? {
      var h := Half(theta).val;
      assert q[1] == Num(m.sin(h)) && q[3] == Num(m.cos(h));
      assert m.sin(h) != 0.0 || m.cos(h) != 0.0;
    } else {
      assert q[1] == NaN;
    }
  }

  /** For finite points, aiming is the random builder applied to the angle
      `arctan2(dz, dx)`: the two builders differ only in where the angle comes from. */
  lemma AimIsYawTowardsGoal(m: Maths, position: Vec3, goal: Vec3)
    requires position.x.Num? && position.z.Num? && goal.x.Num? && goal.z.Num?
    ensures CalculateOrientationXZ(m, position, goal)
         == RandomQuaternionXZ(m, m.atan2(goal.z.val - position.z.val, goal.x.val - position.x.val))
  {
  }

  /** Moving both points by the same horizontal offset, or changing their
      heights, does not change the orientation. */
  lemma AimIsHorizontalAndTranslationInvariant(m: Maths, position: Vec3, goal: Vec3, ox: real, oz: real, py: Float, gy: Float)
    ensures CalculateOrientationXZ(m, Vec3(Add(position.x, ox), py, Add(position.z, oz)),
                                      Vec3(Add(goal.x, ox), gy, Add(goal.z, oz)))
         == CalculateOrientationXZ(m, position, goal)
  {
  }
}
