/**
 * The topological records shared by a hull and its children: points, edges,
 * triangles (reference objects, compared by identity) and the per-split
 * record of where an edge was cut.
 *
 * Fields that are assigned once in a constructor and never again become
 * `const`; the transient `index` of points and edges and the vertex slots of
 * a triangle, which the splitter overwrites, stay `var`.
 */
module Shapes {
  import opened Geometry

  class Point {
    var index: int
    const position: Vec3

    constructor (position: Vec3)
      ensures this.position == position
    {
      this.position := position;
    }
  }

  class Edge {
    var index: int
    const point0: Point
    const point1: Point
    /** The direction of the edge, fixed when the edge is made. */
    const line: Vec3 := Sub(point1.position, point0.position)

    constructor (point0: Point, point1: Point)
      ensures this.point0 == point0 && this.point1 == point1
      ensures line == Sub(point1.position, point0.position)
    {
      this.point0 := point0;
      this.point1 := point1;
    }
  }

  /**
   * Where one edge was cut during one split: the crossing parameter along the
   * edge and the two halves made for the two sides. The default value (no
   * halves) is what every slot holds until a crossing edge fills it.
   */
  datatype EdgeHit = EdgeHit(scalar: real, splitA: Edge?, splitB: Edge?)

  const NoHit: EdgeHit := EdgeHit(0.0, null, null)

  class Triangle {
    var vertex0: int
    var vertex1: int
    var vertex2: int
    const point0: Point
    const point1: Point
    const point2: Point
    const edge0: Edge
    const edge1: Edge
    const edge2: Edge

    constructor (vertex0: int, vertex1: int, vertex2: int,
                 point0: Point, point1: Point, point2: Point,
                 edge0: Edge, edge1: Edge, edge2: Edge)
      ensures this.vertex0 == vertex0 && this.vertex1 == vertex1 && this.vertex2 == vertex2
      ensures this.point0 == point0 && this.point1 == point1 && this.point2 == point2
      ensures this.edge0 == edge0 && this.edge1 == edge1 && this.edge2 == edge2
    {
      this.vertex0 := vertex0;
      this.vertex1 := vertex1;
      this.vertex2 := vertex2;
      this.point0 := point0;
      this.point1 := point1;
      this.point2 := point2;
      this.edge0 := edge0;
      this.edge1 := edge1;
      this.edge2 := edge2;
    }
  }

  /** `e` connects `p` and `q`, in either direction. */
  predicate Joins(e: Edge, p: Point, q: Point) {
    (e.point0 == p && e.point1 == q) || (e.point0 == q && e.point1 == p)
  }

  /**
   * The winding convention of a triangle: edge k joins point k to point
   * (k + 1) mod 3.
   */
  predicate Wound(t: Triangle) {
    && Joins(t.edge0, t.point0, t.point1)
    && Joins(t.edge1, t.point1, t.point2)
    && Joins(t.edge2, t.point2, t.point0)
  }
}
