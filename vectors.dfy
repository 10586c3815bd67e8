/** Optional values: `None` stands for the JavaScript `undefined` / `NaN`
    that the animation code uses as its "no value" signal. */
module Wrappers {

  datatype Option<+T> = None | Some(value: T)
}

/** Three-component vectors, the value part of a `THREE.Vector3`. */
module Vectors {

  datatype Vec3 = Vec3(x: real, y: real, z: real)
  {
    /** Componentwise sum, as `Vector3.add`. */
    function Add(other: Vec3): Vec3
    {
      Vec3(x + other.x, y + other.y, z + other.z)
    }

    /** Componentwise difference, as `Vector3.sub`. */
    function Sub(other: Vec3): Vec3
    {
      Vec3(x - other.x, y - other.y, z - other.z)
    }

    /** Multiplication by a scalar, as `Vector3.multiplyScalar`. */
    function Scale(s: real): Vec3
    {
      Vec3(s * x, s * y, s * z)
    }

    /** The squared Euclidean length. */
    function NormSquared(): real
    {
      x * x + y * y + z * z
    }
  }

  const Zero: Vec3 := Vec3(0.0, 0.0, 0.0)

  /** The vertex count of every map shape: a 3x3 grid, stored row by row,
      so that vertex 3r + c sits in row r and column c. */
  const VertexCount: nat := 9

  /** The grid row (0, 1 or 2) of vertex index v < 9. */
  function GridRow(v: nat): nat
  {
    if v < 3 then 0 else if v < 6 then 1 else 2
  }

  /** The grid column (0, 1 or 2) of vertex index v < 9. */
  function GridCol(v: nat): nat
  {
    if v < 3 then v else if v < 6 then v - 3 else v - 6
  }

  /** `r` lies on the closed segment between `a` and `b`, whichever is larger. */
  predicate Between(a: real, b: real, r: real)
  {
    (a <= r <= b) || (b <= r <= a)
  }
}
