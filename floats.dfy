/** Numbers and 3-vectors as the viewpoint generator's NumPy code sees them. */
module Floats {

  /** A double-precision value: a real number or NaN. Rounding and infinities
      are not modelled; every comparison involving NaN is false. */
  datatype Float = Num(val: real) | NaN

  function Add(a: Float, d: real): Float {
    if a.Num? then Num(a.val + d) else NaN
  }

  function Sub(a: Float, b: Float): Float {
    if a.Num? && b.Num? then Num(a.val - b.val) else NaN
  }

  function Half(a: Float): Float {
    if a.Num? then Num(a.val / 2.0) else NaN
  }

  function Apply1(f: real -> real, a: Float): Float {
    if a.Num? then Num(f(a.val)) else NaN
  }

  function Apply2(f: (real, real) -> real, a: Float, b: Float): Float {
    if a.Num? && b.Num? then Num(f(a.val, b.val)) else NaN
  }

  /** A position; `x` is index 0, `y` (height) index 1 and `z` index 2. */
  datatype Vec3 = Vec3(x: Float, y: Float, z: Float)

  /** The NumPy and SciPy routines the generator calls, left uninterpreted:
      `np.sin`, `np.cos`, `np.arctan2(y, x)`, and the y component of
      `R.from_quat(q).as_euler('xyz')`. */
  datatype Maths = Maths(
    sin: real -> real,
    cos: real -> real,
    atan2: (real, real) -> real,
    eulerY: seq<Float> -> Float)
}
