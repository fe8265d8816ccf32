/**
  What both intersection shapes, and both revisions of the intersection
  component, share: the shape, the names of their two entries, the
  component's world axes, the sidewalk ring's dimensions and the guard of
  the sidewalk build.
*/
module IntersectionParts {
  import opened Wrappers
  import opened Geometry
  import opened Meshes

  /** The entry of the road surface. */
  const IntersectionRoadKey := Named("intersection_road")
  /** The entry of the sidewalk. */
  const IntersectionSidewalkKey := Named("intersection_sidewalk")

  /** The intersection's shape; a new component is a rectangle. */
  datatype Shape = RectangleShape | CircleShape

  /** The component's world axes: WorldRotation.Right, .Forward and .Up. */
  datatype Basis = Basis(right: Vec3, forward: Vec3, up: Vec3)

  /** The sidewalk's width, curb height and texture repeat, none of them clamped by the component. */
  datatype Curb = Curb(width: real, height: real, textureRepeat: real)

  /** Whether `BuildSidewalk` writes anything: both the width and the height are positive. */
  predicate DrawsSidewalk(curb: Curb) {
    curb.width > 0.0 && curb.height > 0.0
  }

  /** The point `p` raised by `h` along `up`. */
  function Raise(p: Vec3, up: Vec3, h: real): Vec3 {
    Add(p, Scale(up, h))
  }
}
