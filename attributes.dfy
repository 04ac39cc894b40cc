/** The shared types of include/attributes.h. */
module Attributes {
  import opened Wrappers
  import opened Vectors

  /** How the mesh is shaded; the declaration order is the source's. */
  datatype ShadingOption = PerVertex | NormalMapping | Wireframe | Flat

  /** Which mesh is loaded. */
  datatype ModelChoice = DragonOff | DragonObj | BunnyOff

  /**
   * One triangle corner as uploaded to the vertex buffer. The tangent is
   * `None` where the source's value is not finite (an infinity or NaN that
   * came from dividing by a zero UV determinant).
   */
  datatype Vertex = Vertex(pos: Vec3, normal: Vec3, tangent: Option<Vec3>, uvCoord: Vec2)

  /** Flat and wireframe rendering take each face's own normal. */
  predicate UsesFaceNormal(opt: ShadingOption) {
    opt == Flat || opt == Wireframe
  }
}
