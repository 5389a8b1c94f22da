/**
 * The host application's geometry, as far as the macro uses it. The path is
 * known only through its length and its edge's two primitives
 * `getParameterByLength` and `valueAt`, which are arbitrary functions here.
 */
module Geometry {

  datatype Vector = Vector(x: real, y: real, z: real)

  /** A rotation by `angle` degrees about `axis`. */
  datatype Rotation = Rotation(axis: Vector, angle: real)

  datatype Placement = Placement(base: Vector, rotation: Rotation)

  /**
   * The path: `length` is the length of its whole shape (`Shape.Length`),
   * which sizes the slider, the clamp boundary and the label; the two
   * functions are the length-to-point primitives of its first edge
   * (`Edges[0]`), which place the follower. The path is taken to be that
   * single edge.
   */
  datatype Curve = Curve(
    length: real,
    parameterByLength: real -> real,
    valueAt: real -> Vector)

  /** The point reached after travelling `arcLength` along the edge from its start. */
  function PointAtLength(curve: Curve, arcLength: real): Vector
  {
    curve.valueAt(curve.parameterByLength(arcLength))
  }

  /** The follower's orientation is always a zero rotation about the z axis. */
  const Upright: Rotation := Rotation(Vector(0.0, 0.0, 1.0), 0.0)
}
