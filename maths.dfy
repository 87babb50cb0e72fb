/** Vectors, the vertex record and a term algebra for 4x4 matrices.
    Matrices are kept symbolic: the engine's float matrix library is not part of
    the model, but the ORDER in which matrices are multiplied is, and the term
    algebra records exactly that. */
module Maths {

  datatype Vec2 = Vec2(x: real, y: real)
  datatype Vec3 = Vec3(x: real, y: real, z: real)
  datatype Vec4 = Vec4(x: real, y: real, z: real, w: real)

  const UNIT_Y: Vec3 := Vec3(0.0, 1.0, 0.0)

  function Scale(v: Vec3, k: real): Vec3 {
    Vec3(v.x * k, v.y * k, v.z * k)
  }

  function Dot(a: Vec3, b: Vec3): real {
    a.x * b.x + a.y * b.y + a.z * b.z
  }

  function Sub(a: Vec3, b: Vec3): Vec3 {
    Vec3(a.x - b.x, a.y - b.y, a.z - b.z)
  }

  function Cross(a: Vec3, b: Vec3): Vec3 {
    Vec3(a.y * b.z - a.z * b.y, a.z * b.x - a.x * b.z, a.x * b.y - a.y * b.x)
  }

  /** The vertex record uploaded to the GPU: 3 + 3 + 2 tightly packed f32. */
  datatype Vertex = Vertex(position: Vec3, normal: Vec3, uv: Vec2)

  /** Size in bytes of the position/normal/uv vertex: eight 4-byte floats.
    * The src crate's declared `Vertex` (position, color, normal) would be 36. */
  const VERTEX_SIZE: nat := 32

  /** Symbolic 4x4 matrices.
      Translation and AxisAngle are the library constructors
      (from_translation, from_axis_angle); Perspective is an unevaluated
      projection; WithW is the matrix with its w column replaced. */
  datatype Matrix =
    | Identity
    | Mul(left: Matrix, right: Matrix)
    | Translation(offset: Vec3)
    | AxisAngle(axis: Vec3, angle: real)
    | Perspective(fovy: real, aspect: real, near: real, far: real)
    | WithW(base: Matrix, w: Vec4)

  /** The factors of a product, left to right, identities dropped: the
      matrix read as a word in the free monoid of its non-product factors. */
  function Factors(m: Matrix): seq<Matrix> {
    match m
    case Identity => []
    case Mul(a, b) => Factors(a) + Factors(b)
    case _ => [m]
  }

  /** Two matrices denote the same product when their factor words agree:
      this identifies terms up to associativity and the identity laws. */
  ghost predicate SameProduct(a: Matrix, b: Matrix) {
    Factors(a) == Factors(b)
  }

  lemma {:induction false} MulAssociative(a: Matrix, b: Matrix, c: Matrix)
    ensures SameProduct(Mul(Mul(a, b), c), Mul(a, Mul(b, c)))
  {
    assert Factors(a) + Factors(b) + Factors(c) == Factors(a) + (Factors(b) + Factors(c));
  }
}
