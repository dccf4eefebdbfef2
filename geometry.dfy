/** Vector and matrix values used by the camera, and the part of the GLM
    library that the model keeps abstract. */
module Geometry {

  /** A `glm::vec3`, over exact reals. */
  datatype Vec3 = Vec3(x: real, y: real, z: real)

  const Zero: Vec3 := Vec3(0.0, 0.0, 0.0)

  function Add(u: Vec3, v: Vec3): Vec3 {
    Vec3(u.x + v.x, u.y + v.y, u.z + v.z)
  }

  function Sub(u: Vec3, v: Vec3): Vec3 {
    Vec3(u.x - v.x, u.y - v.y, u.z - v.z)
  }

  function Neg(v: Vec3): Vec3 {
    Vec3(-v.x, -v.y, -v.z)
  }

  function Scale(k: real, v: Vec3): Vec3 {
    Vec3(k * v.x, k * v.y, k * v.z)
  }

  lemma AddAssociative(u: Vec3, v: Vec3, w: Vec3)
    ensures Add(Add(u, v), w) == Add(u, Add(v, w))
  {
  }

  /** Subtracting a scaled vector adds the scaled opposite. */
  lemma SubScaled(p: Vec3, k: real, v: Vec3)
    ensures Sub(p, Scale(k, v)) == Add(p, Scale(k, Neg(v)))
    ensures Sub(p, Scale(k, Neg(v))) == Add(p, Scale(k, v))
  {
  }

  /** `glm::cross`: the right-handed cross product. */
  function Cross(u: Vec3, v: Vec3): (r: Vec3)
    ensures u == v ==> r == Zero
    ensures u == Zero || v == Zero ==> r == Zero
  {
    Vec3(u.y * v.z - u.z * v.y, u.z * v.x - u.x * v.z, u.x * v.y - u.y * v.x)
  }

  /** A `glm::mat4`, as four rows of four reals. */
  predicate IsMat4(m: seq<seq<real>>) {
    |m| == 4 && forall i | 0 <= i < 4 :: |m[i]| == 4
  }

  const IdentityRows: seq<seq<real>> :=
    [[1.0, 0.0, 0.0, 0.0],
     [0.0, 1.0, 0.0, 0.0],
     [0.0, 0.0, 1.0, 0.0],
     [0.0, 0.0, 0.0, 1.0]]

  type Mat4 = m: seq<seq<real>> | IsMat4(m) witness IdentityRows

  /** `glm::mat4(1.0f)`. */
  const Identity: Mat4 := IdentityRows

  /** The matrix product `a * b`. */
  function MatMul(a: Mat4, b: Mat4): (r: Mat4)
    ensures a == Identity ==> r == b
    ensures b == Identity ==> r == a
  {
    var r: Mat4 := seq(4, i requires 0 <= i < 4 =>
      seq(4, j requires 0 <= j < 4 =>
        a[i][0] * b[0][j] + a[i][1] * b[1][j] + a[i][2] * b[2][j] + a[i][3] * b[3][j]));
    assert a == Identity ==> r == b by {
      if a == Identity {
        assert a[0] == [1.0, 0.0, 0.0, 0.0] && a[1] == [0.0, 1.0, 0.0, 0.0];
        assert a[2] == [0.0, 0.0, 1.0, 0.0] && a[3] == [0.0, 0.0, 0.0, 1.0];
        assert forall i, j | 0 <= i < 4 && 0 <= j < 4 :: r[i][j] == b[i][j];
        assert forall i | 0 <= i < 4 :: r[i] == b[i];
      }
    }
    assert b == Identity ==> r == a by {
      if b == Identity {
        assert b[0] == [1.0, 0.0, 0.0, 0.0] && b[1] == [0.0, 1.0, 0.0, 0.0];
        assert b[2] == [0.0, 0.0, 1.0, 0.0] && b[3] == [0.0, 0.0, 0.0, 1.0];
        assert forall i, j | 0 <= i < 4 && 0 <= j < 4 :: r[i][j] == a[i][j];
        assert forall i | 0 <= i < 4 :: r[i] == a[i];
      }
    }
    r
  }

  /** The degree-to-radian factor `glm::radians` multiplies by. */
  const DegreesToRadians: real := 0.01745329251994329576923690768489

  /** `glm::radians`. */
  function Radians(degrees: real): (r: real)
    ensures degrees == 0.0 <==> r == 0.0
    ensures degrees > 0.0 <==> r > 0.0
  {
    degrees * DegreesToRadians
  }

  /** The GLM functions the camera calls whose internals (square roots and
      trigonometry in floating point) are not modelled: each is an arbitrary
      total function supplied by the caller, so every property proved holds
      whatever they compute.
      - `normalize(v)`: `glm::normalize`
      - `rotate(v, angle, axis)`: `glm::rotate` of a vector about an axis
      - `angle(u, v)`: `glm::angle` between two vectors
      - `lookAt(eye, center, up)`: `glm::lookAt`
      - `perspective(fovy, aspect, near, far)`: `glm::perspective` */
  datatype Glm = Glm(
    normalize: Vec3 -> Vec3,
    rotate: (Vec3, real, Vec3) -> Vec3,
    angle: (Vec3, Vec3) -> real,
    lookAt: (Vec3, Vec3, Vec3) -> Mat4,
    perspective: (real, real, real, real) -> Mat4)
}
