/** Coordinates and axis-aligned boxes. */
module Spatial {

  datatype Vector3 = Vector3(x: real, y: real, z: real)

  const Origin := Vector3(0.0, 0.0, 0.0)

  /** The midpoint of two points: every component lies equally far from both ends. */
  function Average(a: Vector3, b: Vector3): (m: Vector3)
    ensures m.x - a.x == b.x - m.x
    ensures m.y - a.y == b.y - m.y
    ensures m.z - a.z == b.z - m.z
  {
    Vector3((a.x + b.x) / 2.0, (a.y + b.y) / 2.0, (a.z + b.z) / 2.0)
  }

  /** An axis-aligned box given by its minimum and maximum corners. */
  datatype Bounds = Bounds(bottomLeft: Vector3, topRight: Vector3)

  /** Component-wise order on points. */
  predicate AtMost(a: Vector3, b: Vector3) {
    a.x <= b.x && a.y <= b.y && a.z <= b.z
  }

  /** The invariant every producer of a box keeps: its corners are ordered. */
  predicate Ordered(b: Bounds) {
    AtMost(b.bottomLeft, b.topRight)
  }

  predicate Inside(p: Vector3, b: Bounds) {
    AtMost(b.bottomLeft, p) && AtMost(p, b.topRight)
  }

  /** The centre of a box given by its two corners. */
  function Centre(b: Bounds): Vector3 {
    Average(b.bottomLeft, b.topRight)
  }

  /** An ordered box contains its own centre. */
  lemma CentreInside(b: Bounds)
    requires Ordered(b)
    ensures Inside(Centre(b), b)
  {
  }
}
