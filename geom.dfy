/**
 * The geometry values that a tagged line string stores and copies:
 * coordinates and directed line segments (JTS `Coordinate` and `LineSegment`).
 * The tagged line string never computes with the ordinates; it only copies
 * coordinates between containers and, in the proofs, compares them.
 */
module Geom {

  /** A planar coordinate. */
  datatype Coord = Coord(x: real, y: real)

  /** A directed segment from its start `p0` to its end `p1`. */
  datatype LineSegment = LineSegment(p0: Coord, p1: Coord)

}
