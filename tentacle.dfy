/** The straight tentacle: a two-point polyline wrapped in a Y-up tube of
    radius 2 with 8 radial segments. Each ring holds radialSegments + 1
    vertices (the last one closes the ring at angle 2 pi), so consecutive
    rings are radialSegments + 1 apart in the vertex buffer. */
module TentacleStraight {
  import opened Geometry
  import opened Meshes
  import opened Rings
  import opened Tubes
  import opened Shapes

  const TentacleStart: Vec3 := Vec3(0.0, 0.0, 0.0)
  const TentacleEnd: Vec3 := Vec3(0.0, -200.0, 0.0)
  const TubeSegments: int := 2
  const TubeRadius: real := 2.0
  const RadialSegments: nat := 8

  /** `lineResolution - 1` segments, none for an empty polyline. */
  function SegmentCount(n: nat): nat
  {
    if n == 0 then 0 else n - 1
  }

  /** Vertex j of ring i: the point plus the radial offset in the frame of
      segment i. */
  function StraightVertex(line: seq<Vec3>, radius: real, r: nat, k: Kernel): (Vec3, nat, nat) -> Vec3
  {
    (p: Vec3, i: nat, j: nat) => Add(p, k.straightOffset(line, radius, r, i, j))
  }

  /** Normal j of ring i: the normalised radial offset. */
  function StraightNormal(line: seq<Vec3>, radius: real, r: nat, k: Kernel): (Vec3, nat, nat) -> Vec3
  {
    (p: Vec3, i: nat, j: nat) => k.normalize(k.straightOffset(line, radius, r, i, j))
  }

  /** The mesh `generateTubeMesh` builds as written: a ring of r + 1 vertices
      for each of the first n - 1 points only, but faces for every segment,
      each reaching into the ring of the following point. */
  function StraightTubeAsWritten(line: seq<Vec3>, radius: real, r: nat, k: Kernel): MeshData
  {
    var rings := SegmentCount(|line|);
    MeshData(Grid(line[..rings], r + 1, StraightVertex(line, radius, r, k)),
             Grid(line[..rings], r + 1, StraightNormal(line, radius, r, k)),
             [], [], Stitch(rings, r + 1, r), Triangles)
  }

  /** The intended mesh: a ring for every point, the same faces. */
  function StraightTube(line: seq<Vec3>, radius: real, r: nat, k: Kernel): MeshData
  {
    MeshData(Grid(line, r + 1, StraightVertex(line, radius, r, k)),
             Grid(line, r + 1, StraightNormal(line, radius, r, k)),
             [], [], Stitch(SegmentCount(|line|), r + 1, r), Triangles)
  }

  /** `generateTubeMesh` as written: rings for i < lineResolution - 1, faces
      for i < lineResolution - 1. `tubeSegments` is not used. */
  method GenerateTubeMeshAsWritten(shape: BaseShape, line: seq<Vec3>, radius: real,
                                   tubeSegments: int, radialSegments: nat, k: Kernel)
    modifies shape.mesh
    ensures shape.mesh.Data() == StraightTubeAsWritten(line, radius, radialSegments, k)
  {
    var m := shape.mesh;
    m.Clear();
    m.SetMode(Triangles);
    var lineResolution := SegmentCount(|line|);
    EmitRings(m, line[..lineResolution], radialSegments + 1,
              StraightVertex(line, radius, radialSegments, k),
              StraightNormal(line, radius, radialSegments, k), None);
    EmitStitch(m, lineResolution, radialSegments + 1, radialSegments);
  }

  /** The corrected generator: the ring loop runs over every point. */
  method GenerateTubeMesh(shape: BaseShape, line: seq<Vec3>, radius: real,
                          tubeSegments: int, radialSegments: nat, k: Kernel)
    modifies shape.mesh
    ensures shape.mesh.Data() == StraightTube(line, radius, radialSegments, k)
  {
    var m := shape.mesh;
    m.Clear();
    m.SetMode(Triangles);
    EmitRings(m, line, radialSegments + 1,
              StraightVertex(line, radius, radialSegments, k),
              StraightNormal(line, radius, radialSegments, k), None);
    EmitStitch(m, SegmentCount(|line|), radialSegments + 1, radialSegments);
  }

  const TentacleLine: seq<Vec3> := [TentacleStart, TentacleEnd]

  /** `TentacleStraight()` with `generateTentacle`, built by the corrected
      generator. */
  method NewTentacleStraight(k: Kernel) returns (shape: BaseShape)
    ensures fresh(shape) && fresh(shape.mesh)
    ensures shape.kind == TentacleStraightShape
    ensures shape.position == Origin && shape.rotation == Origin && shape.scale == Unit
    ensures shape.mesh.Data() == StraightTube(TentacleLine, TubeRadius, RadialSegments, k)
  {
    shape := new BaseShape(TentacleStraightShape);
    var line := [TentacleStart, TentacleEnd];
    GenerateTubeMesh(shape, line, TubeRadius, TubeSegments, RadialSegments, k);
  }

  /** As written: (n - 1)(r + 1) vertices and normals, 6 (n - 1) r indices,
      no texture coordinates or colours; no index refers to the closing
      vertex r of a ring. */
  lemma StraightAsWrittenCounts(line: seq<Vec3>, radius: real, r: nat, k: Kernel)
    ensures var d := StraightTubeAsWritten(line, radius, r, k);
      var rings := SegmentCount(|line|);
      && |d.vertices| == |d.normals| == rings * (r + 1)
      && |d.indices| == 6 * rings * r
      && d.texCoords == [] && d.colors == []
      && (forall t :: 0 <= t < |d.indices| ==> d.indices[t] % (r + 1) != r)
  {
    var rings := SegmentCount(|line|);
    GridLength(line[..rings], r + 1, StraightVertex(line, radius, r, k));
    GridLength(line[..rings], r + 1, StraightNormal(line, radius, r, k));
    StitchLength(rings, r + 1, r);
    StitchAvoidsSeam(rings, r + 1, r);
  }

  /** As written, whenever there are at least two points and one radial
      segment, the second index of the last quad names vertex
      (n-1)(r+1) + r - 1, past the last vertex: the mesh is not well indexed. */
  lemma StraightAsWrittenOverflow(line: seq<Vec3>, radius: real, r: nat, k: Kernel)
    requires |line| >= 2 && r >= 1
    ensures var d := StraightTubeAsWritten(line, radius, r, k);
      var q := 6 * ((|line| - 2) * r + (r - 1)) + 1;
      && q < |d.indices|
      && d.indices[q] == (|line| - 1) * (r + 1) + r - 1
      && d.indices[q] >= |d.vertices|
      && !WellIndexed(d)
  {
    var n := |line|;
    GridLength(line[..n - 1], r + 1, StraightVertex(line, radius, r, k));
    LastQuadOverflows(StraightTubeAsWritten(line, radius, r, k), n - 1, r);
  }

  /** A mesh of `rings` rings of r + 1 vertices, stitched over those rings:
      the second corner of the last quad is vertex rings (r + 1) + r - 1,
      past the last vertex. */
  lemma LastQuadOverflows(d: MeshData, rings: nat, r: nat)
    requires rings >= 1 && r >= 1
    requires d.indices == Stitch(rings, r + 1, r) && |d.vertices| == rings * (r + 1)
    ensures var q := 6 * ((rings - 1) * r + (r - 1)) + 1;
      && q < |d.indices|
      && d.indices[q] == rings * (r + 1) + r - 1
      && d.indices[q] >= |d.vertices|
      && !WellIndexed(d)
  {
    StitchAt(rings, r + 1, r, rings - 1, r - 1, 1);
    QuadCorners(rings - 1, r - 1, r + 1, r);
    MulSucc(rings - 1, r + 1);
  }

  /** Any two-point polyline with 8 radial segments, as the constructor
      builds it, as written: 9 vertices, and index 16 at position 43. */
  lemma TentacleAsWrittenOutOfRange(line: seq<Vec3>, r: nat, k: Kernel)
    requires |line| == 2 && r == RadialSegments
    ensures var d := StraightTubeAsWritten(line, TubeRadius, r, k);
      |d.vertices| == 9 && 43 < |d.indices| && d.indices[43] == 16
  {
    StraightAsWrittenOverflow(line, TubeRadius, r, k);
    GridLength(line[..1], r + 1, StraightVertex(line, TubeRadius, r, k));
  }

  /** Corrected: n (r + 1) vertices and normals, 6 (n - 1) r indices, each
      naming a vertex and none naming a ring's closing vertex. */
  lemma StraightTubeCounts(line: seq<Vec3>, radius: real, r: nat, k: Kernel)
    ensures var d := StraightTube(line, radius, r, k);
      && |d.vertices| == |d.normals| == |line| * (r + 1)
      && |d.indices| == 6 * SegmentCount(|line|) * r
      && d.texCoords == [] && d.colors == []
      && WellIndexed(d)
      && (forall t :: 0 <= t < |d.indices| ==> d.indices[t] % (r + 1) != r)
  {
    var rings := SegmentCount(|line|);
    GridLength(line, r + 1, StraightVertex(line, radius, r, k));
    GridLength(line, r + 1, StraightNormal(line, radius, r, k));
    StitchLength(rings, r + 1, r);
    StitchBound(rings, r + 1, r);
    StitchAvoidsSeam(rings, r + 1, r);
    if |line| > 0 {
      MulSucc(rings, r + 1);
    }
  }

  /** The corrected tentacle: 18 vertices and 48 indices, all in range. */
  lemma TentacleCounts(k: Kernel)
    ensures var d := StraightTube(TentacleLine, TubeRadius, RadialSegments, k);
      |d.vertices| == 18 && |d.indices| == 48 && WellIndexed(d)
  {
    StraightTubeCounts(TentacleLine, TubeRadius, RadialSegments, k);
  }
}
