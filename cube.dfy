/**
 * The fixed geometric model the 3D view rotates (imuSimulator.py:22-40):
 * the eight vertices of the cube [-1, 1]^3, its six faces as vertex-index
 * quadruples, and one colour per face.
 */
module Cube {

  datatype Vertex = Vertex(x: int, y: int, z: int)

  const Vertices: seq<Vertex> := [
    Vertex(-1, -1, -1), Vertex(1, -1, -1), Vertex(1, 1, -1), Vertex(-1, 1, -1),
    Vertex(-1, -1, 1), Vertex(1, -1, 1), Vertex(1, 1, 1), Vertex(-1, 1, 1)]

  /** Bottom, top, front, back, left, right. */
  const Faces: seq<seq<nat>> := [
    [0, 1, 2, 3], [4, 5, 6, 7], [0, 1, 5, 4], [2, 3, 7, 6], [0, 3, 7, 4], [1, 2, 6, 5]]

  const FaceColors: seq<string> := ["red", "blue", "green", "cyan", "orange", "purple"]

  /** Every vertex is a corner of [-1, 1]^3 and no corner is listed twice. */
  predicate CornersOfUnitCube(vs: seq<Vertex>) {
    && (forall i :: 0 <= i < |vs| ==> vs[i].x in {-1, 1} && vs[i].y in {-1, 1} && vs[i].z in {-1, 1})
    && (forall i, j :: 0 <= i < j < |vs| ==> vs[i] != vs[j])
  }

  /** A face names four distinct vertices that exist. */
  predicate FaceIndicesValid(vs: seq<Vertex>, f: seq<nat>) {
    && |f| == 4
    && (forall i :: 0 <= i < 4 ==> f[i] < |vs|)
    && (forall i, j :: 0 <= i < j < 4 ==> f[i] != f[j])
  }

  /** Two corners are joined by an edge of the cube: they differ in exactly one coordinate. */
  predicate IsEdge(a: Vertex, b: Vertex) {
    (if a.x != b.x then 1 else 0) + (if a.y != b.y then 1 else 0) + (if a.z != b.z then 1 else 0) == 1
  }

  /** All four corners share the same value of one coordinate. */
  predicate SharesCoordinate(a: Vertex, b: Vertex, c: Vertex, d: Vertex) {
    || (a.x == b.x == c.x == d.x)
    || (a.y == b.y == c.y == d.y)
    || (a.z == b.z == c.z == d.z)
  }

  /** The face lies in one coordinate plane and is listed in boundary order, so it is drawn as a convex square. */
  predicate FaceIsSquare(vs: seq<Vertex>, f: seq<nat>)
    requires FaceIndicesValid(vs, f)
  {
    && SharesCoordinate(vs[f[0]], vs[f[1]], vs[f[2]], vs[f[3]])
    && IsEdge(vs[f[0]], vs[f[1]]) && IsEdge(vs[f[1]], vs[f[2]])
    && IsEdge(vs[f[2]], vs[f[3]]) && IsEdge(vs[f[3]], vs[f[0]])
  }

  /** The tables `draw_cube` indexes into are consistent with each other. */
  predicate WellFormedModel(vs: seq<Vertex>, fs: seq<seq<nat>>, colours: seq<string>) {
    && |vs| == 8 && CornersOfUnitCube(vs)
    && |colours| == |fs|
    && (forall k :: 0 <= k < |fs| ==> FaceIndicesValid(vs, fs[k]) && FaceIsSquare(vs, fs[k]))
  }

  lemma {:induction false} ModelWellFormed()
    ensures WellFormedModel(Vertices, Faces, FaceColors)
  {
    forall k | 0 <= k < |Faces|
      ensures FaceIndicesValid(Vertices, Faces[k]) && FaceIsSquare(Vertices, Faces[k])
    {
      assert k == 0 || k == 1 || k == 2 || k == 3 || k == 4 || k == 5;
    }
  }

  /**
   * The faces close up: faces 0 and 1, 2 and 3, 4 and 5 are opposite, and
   * each corner lies on exactly one face of each opposite pair, hence on
   * exactly three faces.
   */
  lemma OppositeFacesPartitionCorners()
    ensures forall v: nat :: v < |Vertices| ==>
      && ((v in Faces[0]) != (v in Faces[1]))
      && ((v in Faces[2]) != (v in Faces[3]))
      && ((v in Faces[4]) != (v in Faces[5]))
  {
  }
}
