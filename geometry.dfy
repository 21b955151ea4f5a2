/**
 * Poses and the two axis conventions of src/types.rs.  Floating-point values
 * are IEEE-754 binary64 bit patterns: the model never does float arithmetic
 * itself; the float kernels it needs (isometry composition and inverse,
 * angle-axis to quaternion, halving) are supplied as a `Kernels` value.
 */
module Geometry3 {
  import opened Wire

  /** An `f64`, as its 64-bit IEEE-754 pattern. */
  type F64 = u64

  const SignBit: u64 := 0x8000_0000_0000_0000

  /** IEEE negation: it flips the sign bit and nothing else, also for NaN and zero. */
  function Neg(x: F64): (r: F64)
    ensures (x < SignBit) <==> (r >= SignBit)
    ensures r % SignBit == x % SignBit
  {
    if x < SignBit then x + SignBit else x - SignBit
  }

  lemma NegInvolutive(x: F64)
    ensures Neg(Neg(x)) == x
  {
  }

  const Zero: F64 := 0
  const One: F64 := 0x3FF0_0000_0000_0000

  /** nalgebra's `Vector3<f64>` and OpenCV's `VecN<f64, 3>`. */
  datatype Vec3 = Vec3(x: F64, y: F64, z: F64)

  /** A unit quaternion: the real part `w` and the vector part `(i, j, k)`. */
  datatype Quaternion = Quaternion(w: F64, i: F64, j: F64, k: F64)

  const IdentityRotation := Quaternion(One, Zero, Zero, Zero)

  /** nalgebra's `Isometry3<f64>`: a translation and a unit-quaternion rotation. */
  datatype Isometry = Isometry(translation: Vec3, rotation: Quaternion)

  /** An image point, OpenCV's `Vec2d`. */
  datatype Point2 = Point2(x: F64, y: F64)

  /**
   * The floating-point kernels of nalgebra the core calls.  They are
   * parameters of the model, not part of it.
   */
  datatype Kernels = Kernels(
    compose: (Isometry, Isometry) -> Isometry,   // `a * b`
    inverse: Isometry -> Isometry,               // `a.inverse()`
    fromScaledAxis: Vec3 -> Quaternion,          // the rotation of `Isometry3::new(t, r)`
    halve: F64 -> F64)                           // `x / 2.0`

  /** The field-to-camera axis permutation `(x, y, z) -> (-y, -z, x)`. */
  function ToOpencvAxes(v: Vec3): (r: Vec3)
    ensures r.z == v.x && Neg(r.x) == v.y && Neg(r.y) == v.z
  {
    Vec3(Neg(v.y), Neg(v.z), v.x)
  }

  /** The camera-to-field axis permutation `(t0, t1, t2) -> (t2, -t0, -t1)`. */
  function FromOpencvAxes(t: Vec3): (r: Vec3)
    ensures r.x == t.z && Neg(r.y) == t.x && Neg(r.z) == t.y
  {
    Vec3(t.z, Neg(t.x), Neg(t.y))
  }

  /** `translation_to_opencv`. */
  function TranslationToOpencv(translation: Vec3): (r: Vec3)
    ensures FromOpencvAxes(r) == translation
  {
    ToOpencvAxes(translation)
  }

  /**
   * `isometry_from_opencv(t, r)`: the translation and the rotation vector are
   * both remapped by `FromOpencvAxes`; the rotation vector then goes through
   * nalgebra's angle-axis conversion.
   */
  function IsometryFromOpencv(kernels: Kernels, t: Vec3, r: Vec3): (iso: Isometry)
    ensures TranslationToOpencv(iso.translation) == t
    ensures iso.rotation == kernels.fromScaledAxis(FromOpencvAxes(r))
  {
    Isometry(FromOpencvAxes(t), kernels.fromScaledAxis(FromOpencvAxes(r)))
  }

  /** The two permutations are inverse to each other in both orders. */
  lemma AxesRoundTrip(v: Vec3)
    ensures FromOpencvAxes(ToOpencvAxes(v)) == v
    ensures ToOpencvAxes(FromOpencvAxes(v)) == v
  {
    NegInvolutive(v.x);
    NegInvolutive(v.y);
    NegInvolutive(v.z);
  }
}
