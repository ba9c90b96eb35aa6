/**
  Vector and scalar arithmetic used by the fly camera, over `real`.

  The operations the camera borrows from its maths library fall in two groups.
  Those that are plain ring arithmetic (vector addition, scaling, the cross
  product) are defined here exactly. Those that are transcendental or that the
  model does not look inside (sine, cosine, pi, normalisation, the look-at,
  rotation and translation matrices and the matrix product) are carried as the
  fields of a `MathLib` value, so every statement proved about the camera holds
  for whatever those functions are.
 */
module VectorMath {

  /** A 3-component vector (OpenTK's `Vector3`). */
  datatype Vec3 = Vec3(x: real, y: real, z: real)

  /** A 4x4 matrix, stored row by row. Its entries are never inspected. */
  type Mat4 = s: seq<real> | |s| == 16 witness seq(16, _ => 0.0)

  /** The world's vertical axis (`Vector3.UnitY`). */
  const UnitY: Vec3 := Vec3(0.0, 1.0, 0.0)

  /** The maths library functions the model treats as unknown. */
  datatype MathLib = MathLib(
    pi: real,
    sin: real -> real,
    cos: real -> real,
    normalize: Vec3 -> Vec3,
    lookAt: (Vec3, Vec3, Vec3) -> Mat4,
    rotationY: real -> Mat4,
    translation: Vec3 -> Mat4,
    mul: (Mat4, Mat4) -> Mat4
  )

  /** `MathHelper.DegreesToRadians`. */
  function Radians(m: MathLib, degrees: real): real
  {
    degrees * (m.pi / 180.0)
  }

  function Add(a: Vec3, b: Vec3): Vec3
  {
    Vec3(a.x + b.x, a.y + b.y, a.z + b.z)
  }

  function Sub(a: Vec3, b: Vec3): Vec3
  {
    Vec3(a.x - b.x, a.y - b.y, a.z - b.z)
  }

  /** Component-wise product with a scalar (`Vector3 * float`). */
  function Scale(v: Vec3, k: real): Vec3
  {
    Vec3(v.x * k, v.y * k, v.z * k)
  }

  /** `Vector3.Cross`: the right-handed cross product. */
  function Cross(a: Vec3, b: Vec3): Vec3
  {
    Vec3(a.y * b.z - a.z * b.y, a.z * b.x - a.x * b.z, a.x * b.y - a.y * b.x)
  }

  function Dot(a: Vec3, b: Vec3): real
  {
    a.x * b.x + a.y * b.y + a.z * b.z
  }

  /** Subtracting what was added gives back the original vector. */
  lemma AddSubCancel(p: Vec3, v: Vec3)
    ensures Sub(Add(p, v), v) == p
    ensures Add(Sub(p, v), v) == p
  {
  }

  /** Displacements add up along a path of three points. */
  lemma SubChain(a: Vec3, b: Vec3, c: Vec3)
    ensures Sub(c, a) == Add(Sub(b, a), Sub(c, b))
  {
  }

  /**
    The right vector the camera builds before `Normalize`, `Cross(front, UnitY)`,
    always lies in the horizontal plane. Normalisation is a library parameter,
    so this says nothing about the stored Right itself.
   */
  lemma CrossWithUnitYIsHorizontal(v: Vec3)
    ensures Cross(v, UnitY) == Vec3(-v.z, 0.0, v.x)
    ensures Dot(Cross(v, UnitY), UnitY) == 0.0
  {
  }

  /**
    The value nearest to `x` in `[lo, hi]`. Serves as the reference
    definition for the source's hand-written clamps.
   */
  function Clamp(lo: real, hi: real, x: real): (r: real)
    requires lo <= hi
    ensures lo <= r <= hi
    ensures lo <= x <= hi ==> r == x
    ensures x < lo ==> r == lo
    ensures hi < x ==> r == hi
  {
    if x < lo then lo else if hi < x then hi else x
  }
}
