/** The fixed generators of the application file: the white circle fan and
    the two polyhedra built from literal vertex and face tables. */
module Primitives {
  import opened Geometry
  import opened Meshes

  // ---------------------------------------------------------------- circle

  /** Number of rim points: the loop runs i = 0 .. resolution inclusive. */
  function RimCount(resolution: int): nat
  {
    if resolution >= 0 then resolution + 1 else 0
  }

  /** The centre, then rim point i for i = 0 .. resolution. */
  function CircleVertices(radius: real, resolution: int, k: Kernel): seq<Vec3>
  {
    [Origin] + seq(RimCount(resolution), i requires 0 <= i < RimCount(resolution) =>
                     k.circlePoint(radius, resolution, i))
  }

  function CircleData(radius: real, resolution: int, k: Kernel): MeshData
  {
    var vs := CircleVertices(radius, resolution, k);
    MeshData(vs, [], [], seq(|vs|, i => White), [], TriangleFan)
  }

  method CreateCircleMesh(radius: real, resolution: int, k: Kernel) returns (m: Mesh)
    ensures fresh(m) && m.Data() == CircleData(radius, resolution, k)
  {
    m := new Mesh();
    m.SetMode(TriangleFan);
    m.AddVertex(Origin);
    m.AddColor(White);
    var i := 0;
    while i <= resolution
      invariant 0 <= i <= RimCount(resolution)
      invariant m.vertices == [Origin] + seq(i, t requires 0 <= t < i => k.circlePoint(radius, resolution, t))
      invariant m.colors == seq(i + 1, t => White)
      invariant m.normals == [] && m.texCoords == [] && m.indices == [] && m.mode == TriangleFan
    {
      m.AddVertex(k.circlePoint(radius, resolution, i));
      m.AddColor(White);
      i := i + 1;
    }
  }

  /** The fan: triangle-fan mode, the centre first at the origin, resolution+2
      vertices (one when the resolution is negative), one white colour per
      vertex, no normals, texture coordinates or indices. */
  lemma CircleShape(radius: real, resolution: int, k: Kernel)
    ensures var d := CircleData(radius, resolution, k);
      && d.mode == TriangleFan
      && |d.vertices| == (if resolution >= 0 then resolution + 2 else 1)
      && d.vertices[0] == Origin
      && |d.colors| == |d.vertices|
      && (forall i :: 0 <= i < |d.colors| ==> d.colors[i] == White)
      && d.normals == [] && d.texCoords == [] && d.indices == []
  {
  }

  // ------------------------------------------------------------ polyhedra

  /** Directed edges a->b, b->c, c->a of each triangle (a, b, c), in order. */
  function Edges(idx: seq<nat>): seq<(nat, nat)>
    requires |idx| % 3 == 0
  {
    seq(|idx|, t requires 0 <= t < |idx| => (idx[t], idx[if t % 3 == 2 then t - 2 else t + 1]))
  }

  /** Every triangle is wound the same way round: no directed edge is used
      twice, and every edge is used in the opposite direction by a neighbour. */
  predicate ConsistentlyWound(idx: seq<nat>)
    requires |idx| % 3 == 0
  {
    var es := Edges(idx);
    && (forall a, b :: 0 <= a < b < |es| ==> es[a] != es[b])
    && (forall e :: e in es ==> (e.1, e.0) in es)
  }

  /** `addIndex(a); addIndex(b); addIndex(c);` — one face line of the tables. */
  method AddFace(m: Mesh, a: nat, b: nat, c: nat)
    modifies m`indices
    ensures m.indices == old(m.indices) + [a, b, c]
  {
    m.AddIndex(a);
    m.AddIndex(b);
    m.AddIndex(c);
  }

  const TetraCorners: seq<Vec3> :=
    [Vec3(1.0, 1.0, 1.0), Vec3(-1.0, -1.0, 1.0), Vec3(-1.0, 1.0, -1.0), Vec3(1.0, -1.0, -1.0)]

  const TetraFaces: seq<nat> := [0, 1, 2,  0, 2, 3,  0, 3, 1,  1, 3, 2]

  function TetrahedronData(size: real): MeshData
  {
    MeshData([Scale(TetraCorners[0], size), Scale(TetraCorners[1], size),
              Scale(TetraCorners[2], size), Scale(TetraCorners[3], size)],
             [], [], [], TetraFaces, Triangles)
  }

  method CreateTetrahedronMesh(size: real) returns (m: Mesh)
    ensures fresh(m) && m.Data() == TetrahedronData(size)
  {
    m := new Mesh();
    var v0 := Scale(Vec3(1.0, 1.0, 1.0), size);
    var v1 := Scale(Vec3(-1.0, -1.0, 1.0), size);
    var v2 := Scale(Vec3(-1.0, 1.0, -1.0), size);
    var v3 := Scale(Vec3(1.0, -1.0, -1.0), size);
    m.AddVertex(v0);
    m.AddVertex(v1);
    m.AddVertex(v2);
    m.AddVertex(v3);
    AddFace(m, 0, 1, 2);
    AddFace(m, 0, 2, 3);
    AddFace(m, 0, 3, 1);
    AddFace(m, 1, 3, 2);
  }

  /** Four vertices, corner k scaled by size in insertion order, four
      triangles over them, and no normals. */
  lemma TetrahedronShape(size: real)
    ensures var d := TetrahedronData(size);
      && |d.vertices| == 4 && |d.indices| == 12 && d.normals == []
      && (forall i :: 0 <= i < 4 ==> d.vertices[i] == Scale(TetraCorners[i], size))
      && WellIndexed(d)
  {
  }

  const TetraEdges: seq<(nat, nat)> :=
    [(0, 1), (1, 2), (2, 0), (0, 2), (2, 3), (3, 0),
     (0, 3), (3, 1), (1, 0), (1, 3), (3, 2), (2, 1)]

  /** The four faces of the tetrahedron are wound consistently. */
  lemma TetrahedronWindingConsistent()
    ensures ConsistentlyWound(TetraFaces)
  {
    assert Edges(TetraFaces) == TetraEdges;
    forall a, b | 0 <= a < b < 12 ensures TetraEdges[a] != TetraEdges[b] {
      assert a in {0, 1, 2, 3, 4, 5, 6, 7, 8, 9, 10};
    }
  }

  const OctaCorners: seq<Vec3> :=
    [Vec3(0.0, 0.0, 1.0), Vec3(1.0, 0.0, 0.0), Vec3(0.0, 1.0, 0.0),
     Vec3(-1.0, 0.0, 0.0), Vec3(0.0, -1.0, 0.0), Vec3(0.0, 0.0, -1.0)]

  const OctaFaces: seq<nat> :=
    [0, 1, 2,  0, 2, 3,  0, 3, 4,  0, 4, 1,
     5, 1, 2,  5, 2, 3,  5, 3, 4,  5, 4, 1]

  function OctahedronData(size: real): MeshData
  {
    MeshData([Scale(OctaCorners[0], size), Scale(OctaCorners[1], size), Scale(OctaCorners[2], size),
              Scale(OctaCorners[3], size), Scale(OctaCorners[4], size), Scale(OctaCorners[5], size)],
             [], [], [], OctaFaces, Triangles)
  }

  method CreateOctahedronMesh(size: real) returns (m: Mesh)
    ensures fresh(m) && m.Data() == OctahedronData(size)
  {
    m := new Mesh();
    var v0 := Scale(Vec3(0.0, 0.0, 1.0), size);
    var v1 := Scale(Vec3(1.0, 0.0, 0.0), size);
    var v2 := Scale(Vec3(0.0, 1.0, 0.0), size);
    var v3 := Scale(Vec3(-1.0, 0.0, 0.0), size);
    var v4 := Scale(Vec3(0.0, -1.0, 0.0), size);
    var v5 := Scale(Vec3(0.0, 0.0, -1.0), size);
    m.AddVertex(v0);
    m.AddVertex(v1);
    m.AddVertex(v2);
    m.AddVertex(v3);
    m.AddVertex(v4);
    m.AddVertex(v5);
    AddOctahedronFaces(m);
  }

  /** The eight face lines: four around the upper pole 0, four around the
      lower pole 5. */
  method AddOctahedronFaces(m: Mesh)
    modifies m`indices
    ensures m.indices == old(m.indices) + OctaFaces
  {
    AddFace(m, 0, 1, 2);
    AddFace(m, 0, 2, 3);
    AddFace(m, 0, 3, 4);
    AddFace(m, 0, 4, 1);
    AddFace(m, 5, 1, 2);
    AddFace(m, 5, 2, 3);
    AddFace(m, 5, 3, 4);
    AddFace(m, 5, 4, 1);
  }

  predicate IsPole(v: nat) { v == 0 || v == 5 }

  /** Six vertices scaled by size, eight triangles, no normals; every face
      has exactly one pole (0 or 5) and two distinct equatorial vertices. */
  lemma OctahedronShape(size: real)
    ensures var d := OctahedronData(size);
      && |d.vertices| == 6 && |d.indices| == 24 && d.normals == []
      && (forall i :: 0 <= i < 6 ==> d.vertices[i] == Scale(OctaCorners[i], size))
      && WellIndexed(d)
      && (forall f :: 0 <= f < 8 ==>
            && IsPole(d.indices[3 * f])
            && 1 <= d.indices[3 * f + 1] <= 4 && 1 <= d.indices[3 * f + 2] <= 4
            && d.indices[3 * f + 1] != d.indices[3 * f + 2])
  {
    var d := OctahedronData(size);
    forall f | 0 <= f < 8
      ensures IsPole(d.indices[3 * f]) && 1 <= d.indices[3 * f + 1] <= 4
        && 1 <= d.indices[3 * f + 2] <= 4 && d.indices[3 * f + 1] != d.indices[3 * f + 2]
    {
      assert f in {0, 1, 2, 3, 4, 5, 6, 7};
    }
  }

  const OctaEdges: seq<(nat, nat)> :=
    [(0, 1), (1, 2), (2, 0), (0, 2), (2, 3), (3, 0),
     (0, 3), (3, 4), (4, 0), (0, 4), (4, 1), (1, 0),
     (5, 1), (1, 2), (2, 5), (5, 2), (2, 3), (3, 5),
     (5, 3), (3, 4), (4, 5), (5, 4), (4, 1), (1, 5)]

  lemma OctahedronEdges()
    ensures Edges(OctaFaces) == OctaEdges
  {
  }

  /** The lower faces repeat the upper faces' equatorial edges in the same
      direction: 1->2, 2->3, 3->4 and 4->1 each occur once in an upper and
      once in a lower face ... */
  lemma OctahedronRepeatedEdges()
    ensures var es := Edges(OctaFaces);
      && es[1] == es[13] == (1, 2) && es[4] == es[16] == (2, 3)
      && es[7] == es[19] == (3, 4) && es[10] == es[22] == (4, 1)
  {
    OctahedronEdges();
  }

  /** ... and their reverses occur nowhere. */
  lemma OctahedronMissingReverses()
    ensures forall t :: 0 <= t < |Edges(OctaFaces)| ==>
      var e := Edges(OctaFaces)[t];
      e != (2, 1) && e != (3, 2) && e != (4, 3) && e != (1, 4)
  {
    OctahedronEdges();
  }

  /** Hence the octahedron is not consistently wound. */
  lemma OctahedronNotConsistentlyWound()
    ensures !ConsistentlyWound(OctaFaces)
  {
    OctahedronEdges();
    assert Edges(OctaFaces)[1] == Edges(OctaFaces)[13];
  }

  /** Neither polyhedron carries normals, so a loop that reads normal i for
      every vertex i reads past the end of the normal buffer. */
  lemma PolyhedraLackNormals(size: real)
    ensures !NormalsCover(TetrahedronData(size))
    ensures !NormalsCover(OctahedronData(size))
  {
  }
}
