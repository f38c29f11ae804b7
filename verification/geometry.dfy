/**
  Geometry primitives of the cube viewer: points in object space and on the
  drawing surface, edges as index pairs, angle triples, the view
  centre, and the orthographic projection.
 */
module Geometry {
  import opened Constants

  datatype Point3D = Point3D(x: real, y: real, z: real)

  datatype Point2D = Point2D(x: real, y: real)

  /** An undirected segment between two vertices, given by their indices. */
  datatype Edge = Edge(first: nat, second: nat)

  /** A rotation angle (or angular velocity) about each of the X, Y and Z axes. */
  datatype Angle3D = Angle3D(xa: real, ya: real, za: real)

  /** The centre of the view box; object-space origin is drawn here. */
  const ViewCenter: Point2D := Point2D(ViewBoxSize / 2.0, ViewBoxSize / 2.0)

  /** Orthographic projection: drop the depth and move the origin to the view centre. */
  function Project(p: Point3D): (r: Point2D)
    ensures r.x == p.x + 300.0 && r.y == p.y + 300.0
  {
    Point2D(p.x + ViewCenter.x, p.y + ViewCenter.y)
  }

  /** Two points project to the same drawing position exactly when they agree
      on x and y: depth is ignored and nothing else is lost. */
  lemma ProjectDropsOnlyDepth(p: Point3D, q: Point3D)
    ensures Project(p) == Project(q) <==> p.x == q.x && p.y == q.y
  {
  }

  /** The vector from `q` to `p`, componentwise. */
  function Sub(p: Point3D, q: Point3D): Point3D {
    Point3D(p.x - q.x, p.y - q.y, p.z - q.z)
  }

  /** Squared distance from the origin. */
  function NormSq(p: Point3D): real {
    p.x * p.x + p.y * p.y + p.z * p.z
  }

  /** Squared distance between two points. */
  function DistSq(p: Point3D, q: Point3D): real {
    NormSq(Sub(p, q))
  }

  /** One coordinate of a cube corner: bit 0 of `bits` clear means +100, set means -100. */
  function CornerCoordinate(bits: nat): real {
    if bits % 2 == 0 then 100.0 else -100.0
  }

  /** Corner `i` of the cube of half-side 100 about the origin: bits 0, 1 and 2
      of `i` give the signs of x, y and z. */
  function Corner(i: nat): (p: Point3D)
    requires i < 8
    ensures NormSq(p) == 30000.0
  {
    Point3D(CornerCoordinate(i), CornerCoordinate(i / 2), CornerCoordinate(i / 4))
  }

  /** The edge joins two corners whose indices differ in exactly one bit,
      listed with the smaller index first. */
  predicate IsCubeEdge(e: Edge) {
    && e.second < 8
    && (|| (e.second == e.first + 1 && e.first % 2 == 0)
        || (e.second == e.first + 2 && (e.first / 2) % 2 == 0)
        || (e.second == e.first + 4 && (e.first / 4) % 2 == 0))
  }

  /** Every cube edge joins corners that differ in one coordinate, so it has length 200. */
  lemma CubeEdgeLength(e: Edge)
    requires IsCubeEdge(e)
    ensures DistSq(Corner(e.first), Corner(e.second)) == 40000.0
  {
  }

  predicate EdgesInRange(edges: seq<Edge>, n: nat) {
    forall i :: 0 <= i < |edges| ==> edges[i].first < n && edges[i].second < n
  }
}
