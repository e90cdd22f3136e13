/** Value types of the two math libraries the system mixes: Unity's
    left-handed `UnityEngine` vectors and matrices, the right-handed
    `System.Numerics` ones delivered by the Windows Perception API, and
    OpenCV's `Rect2d` / `Point`.  Floating point is modelled as `real`. */
module Geometry {

  datatype Vector2 = Vector2(x: real, y: real)
  datatype Vector3 = Vector3(x: real, y: real, z: real)
  datatype Vector4 = Vector4(x: real, y: real, z: real, w: real)
  datatype Quaternion = Quaternion(x: real, y: real, z: real, w: real)

  /** `UnityEngine.Matrix4x4`: entry `mRC` sits in row R, column C. */
  datatype Matrix4x4 = Matrix4x4(
    m00: real, m01: real, m02: real, m03: real,
    m10: real, m11: real, m12: real, m13: real,
    m20: real, m21: real, m22: real, m23: real,
    m30: real, m31: real, m32: real, m33: real)
  {
    /** `GetColumn(c)`: the four entries of column `c`, top to bottom. */
    function GetColumn(c: nat): (v: Vector4)
      requires c < 4
      ensures v == Vector4(Entry(0, c), Entry(1, c), Entry(2, c), Entry(3, c))
    {
      if c == 0 then Vector4(m00, m10, m20, m30)
      else if c == 1 then Vector4(m01, m11, m21, m31)
      else if c == 2 then Vector4(m02, m12, m22, m32)
      else Vector4(m03, m13, m23, m33)
    }

    function Entry(r: nat, c: nat): real
      requires r < 4 && c < 4
    {
      var row := if r == 0 then [m00, m01, m02, m03]
                 else if r == 1 then [m10, m11, m12, m13]
                 else if r == 2 then [m20, m21, m22, m23]
                 else [m30, m31, m32, m33];
      row[c]
    }
  }

  /** The Unity constructor `new Matrix4x4(column0, column1, column2, column3)`. */
  function FromColumns(c0: Vector4, c1: Vector4, c2: Vector4, c3: Vector4): (m: Matrix4x4)
    ensures m.GetColumn(0) == c0 && m.GetColumn(1) == c1
    ensures m.GetColumn(2) == c2 && m.GetColumn(3) == c3
  {
    Matrix4x4(c0.x, c1.x, c2.x, c3.x,
              c0.y, c1.y, c2.y, c3.y,
              c0.z, c1.z, c2.z, c3.z,
              c0.w, c1.w, c2.w, c3.w)
  }

  const Identity: Matrix4x4 :=
    Matrix4x4(1.0, 0.0, 0.0, 0.0,
              0.0, 1.0, 0.0, 0.0,
              0.0, 0.0, 1.0, 0.0,
              0.0, 0.0, 0.0, 1.0)

  /** Unity's implicit `Vector4` to `Vector3` conversion drops `w`. */
  function Xyz(v: Vector4): Vector3 { Vector3(v.x, v.y, v.z) }

  // System.Numerics types (right-handed); `Mrc` is row r, column c, 1-based.
  datatype NumericsVector2 = NumericsVector2(X: real, Y: real)
  datatype NumericsVector3 = NumericsVector3(X: real, Y: real, Z: real)
  datatype NumericsQuaternion = NumericsQuaternion(X: real, Y: real, Z: real, W: real)
  datatype NumericsMatrix4x4 = NumericsMatrix4x4(
    M11: real, M12: real, M13: real, M14: real,
    M21: real, M22: real, M23: real, M24: real,
    M31: real, M32: real, M33: real, M34: real,
    M41: real, M42: real, M43: real, M44: real)

  /** The translation part of a System.Numerics (row-vector) transform. */
  function Translation(m: NumericsMatrix4x4): NumericsVector3 {
    NumericsVector3(m.M41, m.M42, m.M43)
  }

  // ---- NumericsConversionExtensions: flipping handedness along z ----

  function Vector2ToUnity(v: NumericsVector2): (u: Vector2)
    ensures u.x == v.X && u.y == v.Y
  {
    Vector2(v.X, v.Y)
  }

  function Vector3ToUnity(v: NumericsVector3): (u: Vector3)
    ensures u.x == v.X && u.y == v.Y && u.z == -v.Z
    ensures Vector3ToSystem(u) == v
  {
    Vector3(v.X, v.Y, -v.Z)
  }

  function Vector3ToSystem(u: Vector3): (v: NumericsVector3)
  {
    NumericsVector3(u.x, u.y, -u.z)
  }

  function QuaternionToUnity(q: NumericsQuaternion): (u: Quaternion)
    ensures u.x == -q.X && u.y == -q.Y && u.z == q.Z && u.w == q.W
    ensures QuaternionToSystem(u) == q
  {
    Quaternion(-q.X, -q.Y, q.Z, q.W)
  }

  function QuaternionToSystem(u: Quaternion): (q: NumericsQuaternion)
  {
    NumericsQuaternion(-u.x, -u.y, u.z, u.w)
  }

  /** Built from four columns, each of them a row of `m` mirrored along z. */
  function MatrixToUnity(m: NumericsMatrix4x4): (u: Matrix4x4)
    ensures u.GetColumn(0) == Vector4(m.M11, m.M12, -m.M13, m.M14)
    ensures u.GetColumn(1) == Vector4(m.M21, m.M22, -m.M23, m.M24)
    ensures u.GetColumn(2) == Vector4(-m.M31, -m.M32, m.M33, -m.M34)
    ensures u.GetColumn(3) == Vector4(m.M41, m.M42, -m.M43, m.M44)
    ensures MatrixToSystem(u) == m
  {
    FromColumns(
      Vector4(m.M11, m.M12, -m.M13, m.M14),
      Vector4(m.M21, m.M22, -m.M23, m.M24),
      Vector4(-m.M31, -m.M32, m.M33, -m.M34),
      Vector4(m.M41, m.M42, -m.M43, m.M44))
  }

  function MatrixToSystem(u: Matrix4x4): (m: NumericsMatrix4x4)
  {
    NumericsMatrix4x4(
      u.m00, u.m10, -u.m20, u.m30,
      u.m01, u.m11, -u.m21, u.m31,
      -u.m02, -u.m12, u.m22, -u.m32,
      u.m03, u.m13, -u.m23, u.m33)
  }

  lemma Vector3RoundTrip(u: Vector3)
    ensures Vector3ToUnity(Vector3ToSystem(u)) == u
  {
  }

  lemma QuaternionRoundTrip(u: Quaternion)
    ensures QuaternionToUnity(QuaternionToSystem(u)) == u
  {
  }

  lemma MatrixRoundTrip(u: Matrix4x4)
    ensures MatrixToUnity(MatrixToSystem(u)) == u
  {
  }

  /** Column c of the converted matrix is row c+1 of the original with the
      handedness flip applied: the translation row becomes column 3, and its
      first three entries are the converted translation vector. */
  lemma MatrixToUnityTranslation(m: NumericsMatrix4x4)
    ensures Xyz(MatrixToUnity(m).GetColumn(3)) == Vector3ToUnity(Translation(m))
    ensures MatrixToUnity(m).GetColumn(3).w == m.M44
  {
  }

  /** OpenCV `Rect2d`: top-left corner, width and height, in pixels. */
  datatype Rect2d = Rect2d(x: real, y: real, width: real, height: real)

  /** OpenCV `Point`. */
  datatype Point = Point(x: real, y: real)

  /** `new Rect2d()`. */
  const EmptyRect: Rect2d := Rect2d(0.0, 0.0, 0.0, 0.0)
}
